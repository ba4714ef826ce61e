/**
 * JavaScript values as the Farm dispatcher handles them: the results of
 * JSON.parse, the objects a backend hands back, and `undefined`.
 * Numbers are modelled as integers (NaN, fractions and -0 are not modelled).
 */
module JsValues {

  datatype Option<T> = None | Some(value: T)

  datatype Value =
    | Undefined
    | Null
    | Bool(b: bool)
    | Num(n: int)
    | Str(s: string)
    | Arr(items: seq<Value>)
    | Obj(fields: map<string, Value>)

  /**
   * JavaScript truthiness: `!!v`. Exactly the five falsy values the model
   * covers are falsy (NaN and -0 are not modelled); empty arrays and objects
   * are truthy.
   */
  function Truthy(v: Value): (r: bool)
    ensures !r <==> v == Undefined || v == Null || v == Bool(false) || v == Num(0) || v == Str("")
  {
    match v
    case Undefined => false
    case Null => false
    case Bool(b) => b
    case Num(n) => n != 0
    case Str(s) => s != ""
    case Arr(_) => true
    case Obj(_) => true
  }

  /** Values whose property reads throw a TypeError. */
  predicate Nullish(v: Value) {
    v.Undefined? || v.Null?
  }

  /** `a || b`: the first operand when it is truthy, the second otherwise. */
  function Or(a: Value, b: Value): (r: Value)
    ensures Truthy(a) ==> r == a
    ensures !Truthy(a) ==> r == b
    ensures Truthy(r) <==> Truthy(a) || Truthy(b)
  {
    if Truthy(a) then a else b
  }

  /**
   * `v.key` for a key that no built-in prototype defines (the dispatcher only
   * reads such keys). Reading a property of null or undefined throws, so the
   * caller rules that out first.
   */
  function Field(v: Value, key: string): (r: Value)
    requires !Nullish(v)
    ensures v.Obj? && key in v.fields ==> r == v.fields[key]
    ensures r != Undefined ==> v.Obj? && key in v.fields
  {
    if v.Obj? && key in v.fields then v.fields[key] else Undefined
  }

  predicate IsDigit(c: char) {
    '0' as int <= c as int <= '9' as int
  }

  /** The keys JavaScript gives array and string indices: non-empty decimal digit strings. */
  predicate IsIndexKey(k: string) {
    |k| > 0 && forall i :: 0 <= i < |k| ==> IsDigit(k[i])
  }

  function DigitChar(d: int): (c: char)
    requires 0 <= d < 10
    ensures IsDigit(c) && c as int - '0' as int == d
  {
    ('0' as int + d) as char
  }

  /** The decimal spelling JavaScript gives a non-negative integer. */
  function NatToString(n: nat): (r: string)
    ensures IsIndexKey(r)
    ensures r[0] == '0' ==> r == "0"
    decreases n
  {
    if n < 10 then [DigitChar(n)] else NatToString(n / 10) + [DigitChar(n % 10)]
  }

  /** Reads a string of decimal digits back as a number. */
  function DigitsValue(s: string): nat
    requires forall i :: 0 <= i < |s| ==> IsDigit(s[i])
  {
    if s == [] then 0
    else
      var last := s[|s| - 1];
      assert IsDigit(last);
      DigitsValue(s[..|s| - 1]) * 10 + (last as int - '0' as int)
  }

  /** Spelling a number and reading it back gives the number again, so distinct indices give distinct keys. */
  lemma {:induction false} NatToStringRoundTrip(n: nat)
    ensures DigitsValue(NatToString(n)) == n
    decreases n
  {
    var r := NatToString(n);
    if n < 10 {
      assert r[..|r| - 1] == [];
    } else {
      NatToStringRoundTrip(n / 10);
      assert r[..|r| - 1] == NatToString(n / 10);
    }
  }

  /** `String(n)` for an integer. */
  function IntToString(n: int): (r: string)
    ensures |r| > 0
    ensures n >= 0 ==> IsIndexKey(r) && DigitsValue(r) == n
    ensures n >= 0 && r[0] == '0' ==> r == "0"
    ensures n < 0 ==> r[0] == '-' && IsIndexKey(r[1..]) && DigitsValue(r[1..]) == -n
    ensures n < 0 ==> |r| > 1 && r[1] != '0'
  {
    if n < 0 then
      NatToStringRoundTrip(-n);
      assert ("-" + NatToString(-n))[1..] == NatToString(-n);
      "-" + NatToString(-n)
    else
      NatToStringRoundTrip(n);
      NatToString(n)
  }

  /** Distinct integers are spelled differently, so `String(n)` loses nothing. */
  lemma IntToStringInjective(m: int, n: int)
    requires IntToString(m) == IntToString(n)
    ensures m == n
  {
  }

  /** The keys of the indices `0 .. n-1`. */
  function IndexKeys(n: nat): set<string> {
    set i | 0 <= i < n :: NatToString(i)
  }

  lemma IndexKeysStep(n: nat)
    ensures IndexKeys(n + 1) == IndexKeys(n) + {NatToString(n)}
  {
    forall k | k in IndexKeys(n + 1)
      ensures k in IndexKeys(n) + {NatToString(n)}
    {
      var i :| 0 <= i < n + 1 && k == NatToString(i);
      if i < n {
        assert k in IndexKeys(n);
      }
    }
  }

  /** `{...items}` for an array: index keys to elements. */
  function IndexMap(items: seq<Value>): (m: map<string, Value>)
    ensures forall k :: k in m ==> IsIndexKey(k)
    ensures forall i :: 0 <= i < |items| ==> NatToString(i) in m && m[NatToString(i)] == items[i]
  {
    if items == [] then map[]
    else
      var last := |items| - 1;
      var m := IndexMap(items[..last]);
      forall i | 0 <= i < last
        ensures NatToString(i) != NatToString(last)
      {
        NatToStringRoundTrip(i);
        NatToStringRoundTrip(last);
      }
      m[NatToString(last) := items[last]]
  }

  /** Spreading an array yields exactly one key per index, and no other key. */
  lemma {:induction false} IndexMapKeys(items: seq<Value>)
    ensures IndexMap(items).Keys == IndexKeys(|items|)
    decreases |items|
  {
    if items != [] {
      var last := |items| - 1;
      IndexMapKeys(items[..last]);
      assert IndexMap(items).Keys == IndexMap(items[..last]).Keys + {NatToString(last)};
      IndexKeysStep(last);
    }
  }

  /**
   * The own enumerable properties that the object spread `{...v}` copies:
   * an object's fields, the indices of an array or a string, nothing otherwise.
   */
  function Spread(v: Value): (m: map<string, Value>)
    ensures v.Obj? ==> m == v.fields
    ensures v.Arr? ==> m.Keys == IndexKeys(|v.items|)
    ensures v.Arr? ==> forall i :: 0 <= i < |v.items| ==> m[NatToString(i)] == v.items[i]
    ensures v.Str? ==> m.Keys == IndexKeys(|v.s|)
    ensures v.Str? ==> forall i :: 0 <= i < |v.s| ==> m[NatToString(i)] == Str([v.s[i]])
    ensures !v.Obj? ==> forall k :: k in m ==> IsIndexKey(k)
    ensures !v.Obj? && !v.Arr? && !v.Str? ==> m == map[]
  {
    match v
    case Obj(fields) => fields
    case Arr(items) => IndexMapKeys(items); IndexMap(items)
    case Str(s) =>
      var chars := seq(|s|, i requires 0 <= i < |s| => Str([s[i]]));
      IndexMapKeys(chars);
      IndexMap(chars)
    case _ => map[]
  }

  /**
   * `String(v)` (and `${v}` in a template). Arrays join their elements with
   * "," and spell null and undefined elements as the empty string; objects
   * parsed from JSON spell as "[object Object]".
   */
  function JsString(v: Value): (r: string)
    ensures v.Undefined? ==> r == "undefined"
    ensures v.Null? ==> r == "null"
    ensures v.Bool? ==> r == if v.b then "true" else "false"
    ensures v.Num? && v.n >= 0 ==> IsIndexKey(r) && DigitsValue(r) == v.n
    ensures v.Num? && v.n >= 0 && r[0] == '0' ==> r == "0"
    ensures v.Num? && v.n < 0 ==> |r| > 1 && r[0] == '-' && IsIndexKey(r[1..]) && DigitsValue(r[1..]) == -v.n
    ensures v.Num? && v.n < 0 ==> r[1] != '0'
    ensures v.Str? ==> r == v.s
    ensures v.Obj? ==> r == "[object Object]"
    ensures v.Arr? && v.items == [] ==> r == ""
    ensures v.Arr? && |v.items| == 1 ==> r == ElementString(v.items[0])
    ensures v.Arr? && |v.items| > 1 ==>
      var e := ElementString(v.items[0]);
      |e| < |r| && r[..|e|] == e && r[|e|] == ',' && r[|e| + 1..] == JoinItems(v, v.items[1..])

    decreases v, 1
  {
    match v
    case Undefined => "undefined"
    case Null => "null"
    case Bool(b) => if b then "true" else "false"
    case Num(n) => IntToString(n)
    case Str(s) => s
    case Arr(items) => JoinItems(v, items)
    case Obj(_) => "[object Object]"
  }

  /** How `join` spells one element: null and undefined become the empty string. */
  function ElementString(x: Value): (r: string)
    ensures Nullish(x) ==> r == ""
    ensures !Nullish(x) ==> r == JsString(x)
    decreases x, 2
  {
    if Nullish(x) then "" else JsString(x)
  }

  /**
   * `items.join(",")`, where `items` are the elements of the array `whole`:
   * the elements' spellings in order, with one comma between neighbours.
   */
  function JoinItems(whole: Value, items: seq<Value>): (r: string)
    requires forall i :: 0 <= i < |items| ==> items[i] < whole
    ensures items == [] ==> r == ""
    ensures |items| == 1 ==> r == ElementString(items[0])
    ensures |items| > 1 ==>
      var e := ElementString(items[0]);
      |e| < |r| && r[..|e|] == e && r[|e|] == ',' && r[|e| + 1..] == JoinItems(whole, items[1..])

    decreases whole, 0, |items|
  {
    if items == [] then ""
    else
      var first := ElementString(items[0]);
      if |items| == 1 then first
      else
        var r := first + "," + JoinItems(whole, items[1..]);
        assert r[..|first|] == first;
        r
  }

  /** The number of times `c` occurs in `s`. */
  function Occurrences(s: string, c: char): nat {
    if s == [] then 0 else (if s[0] == c then 1 else 0) + Occurrences(s[1..], c)
  }

  lemma {:induction false} OccurrencesAppend(a: string, b: string, c: char)
    ensures Occurrences(a + b, c) == Occurrences(a, c) + Occurrences(b, c)
    decreases |a|
  {
    if a != [] {
      assert (a + b)[0] == a[0];
      assert (a + b)[1..] == a[1..] + b;
      OccurrencesAppend(a[1..], b, c);
    } else {
      assert a + b == b;
    }
  }

  /**
   * `join(",")` puts exactly one separator between neighbouring elements:
   * when no element's spelling holds a comma, the result holds one comma
   * fewer than there are elements.
   */
  lemma {:induction false} JoinItemsSeparators(whole: Value, items: seq<Value>)
    requires |items| > 0
    requires forall i :: 0 <= i < |items| ==> items[i] < whole
    requires forall i :: 0 <= i < |items| ==> ',' !in ElementString(items[i])
    ensures Occurrences(JoinItems(whole, items), ',') == |items| - 1
    decreases |items|
  {
    var first := ElementString(items[0]);
    NoOccurrences(first, ',');
    if |items| > 1 {
      JoinItemsSeparators(whole, items[1..]);
      OccurrencesAppend(first, ",", ',');
      OccurrencesAppend(first + ",", JoinItems(whole, items[1..]), ',');
    }
  }

  lemma {:induction false} NoOccurrences(s: string, c: char)
    requires c !in s
    ensures Occurrences(s, c) == 0
    decreases |s|
  {
    if s != [] {
      assert c !in s[1..];
      NoOccurrences(s[1..], c);
    }
  }
}
