/** The JavaScript values that flow through the stores and helpers: plain
    data as read from and written to the document store, with object
    properties kept in insertion order (the order `Object.keys` reports),
    plus the `serverTimestamp()` sentinel that writes carry and the
    timestamps that reads return in its place. */
module JsValues {
  import opened Strings

  datatype Option<+T> = None | Some(value: T)

  datatype Value =
    | Undefined
    | Null
    | Bool(b: bool)
    | Num(n: int)
    | Str(s: string)
    | Array(items: seq<Value>)
    | Object(entries: Entries)
    | ServerTimestamp
    /** A stored time as the document store returns it (a `Timestamp`). */
    | Timestamp(seconds: int, nanoseconds: int)

  /** The own properties of an object, in insertion order. */
  type Entries = seq<(string, Value)>

  /** `Object.keys(o)`. */
  function Keys(o: Entries): (r: seq<string>)
    ensures |r| == |o|
    ensures forall i :: 0 <= i < |o| ==> r[i] == o[i].0
  {
    if o == [] then [] else [o[0].0] + Keys(o[1..])
  }

  /** `o[key]`: `undefined` when the property is absent. With unique keys, as
      in every JavaScript object, this is the one entry for `key`; the last
      one is taken so that a repeated key reads as its latest assignment. */
  function Get(o: Entries, key: string): Value
  {
    if o == [] then Undefined
    else if key in Keys(o[1..]) then Get(o[1..], key)
    else if o[0].0 == key then o[0].1
    else Undefined
  }

  /** Every entry for `key` gets the value `v`; the others are untouched. */
  function Overwrite(o: Entries, key: string, v: Value): (r: Entries)
    ensures Keys(r) == Keys(o)
  {
    if o == [] then []
    else [(o[0].0, if o[0].0 == key then v else o[0].1)] + Overwrite(o[1..], key, v)
  }

  /** `o[key] = v`: an existing property keeps its place, a new one goes last. */
  function Set(o: Entries, key: string, v: Value): Entries
  {
    if key in Keys(o) then Overwrite(o, key, v) else o + [(key, v)]
  }

  /** Copies the properties of `src`, in order, onto `o`, as the spread
      `...src` does inside an object literal. */
  function Assign(o: Entries, src: Entries): Entries
    decreases src
  {
    if src == [] then o else Assign(Set(o, src[0].0, src[0].1), src[1..])
  }

  /** `{...a, ...b}`. */
  function Spread(a: Entries, b: Entries): Entries
  {
    Assign(Assign([], a), b)
  }

  /** `null` or `undefined`: reading a property of either throws a TypeError. */
  predicate Nullish(v: Value)
  {
    v.Null? || v.Undefined?
  }

  /** `v[key]` for an object; any other value has no such data property. */
  function Prop(v: Value, key: string): Value
  {
    if v.Object? then Get(v.entries, key) else Undefined
  }

  /** JavaScript truthiness (numbers are integers here, so NaN is absent). */
  predicate Truthy(v: Value)
  {
    match v
    case Undefined => false
    case Null => false
    case Bool(b) => b
    case Num(n) => n != 0
    case Str(s) => s != ""
    case _ => true
  }

  /** Decimal digits of a natural number. */
  function NatToString(n: nat): (r: string)
    ensures |r| >= 1
    ensures forall i :: 0 <= i < |r| ==> '0' <= r[i] <= '9'
    decreases n
  {
    var d := ['0' + (n % 10) as char];
    if n < 10 then d else NatToString(n / 10) + d
  }

  /** `String(n)` for an integer. */
  function IntToString(n: int): string
  {
    if n < 0 then "-" + NatToString(-n) else NatToString(n)
  }

  /** `String(v)`, as a template literal `${v}` converts it. Arrays join their
      elements with ",", writing null and undefined elements as nothing. */
  function Display(v: Value): string
    decreases v, 0
  {
    match v
    case Undefined => "undefined"
    case Null => "null"
    case Bool(b) => if b then "true" else "false"
    case Num(n) => IntToString(n)
    case Str(s) => s
    case Array(items) => Join(seq(|items|, i requires 0 <= i < |items| => ElementText(items[i])), ",")
    case Object(_) => "[object Object]"
    case ServerTimestamp => "[object Object]"
    case Timestamp(sec, nano) =>
      "Timestamp(seconds=" + IntToString(sec) + ", nanoseconds=" + IntToString(nano) + ")"
  }

  /** How `Array.prototype.join` writes one element. */
  function ElementText(v: Value): string
    decreases v, 1
  {
    if v.Undefined? || v.Null? then "" else Display(v)
  }

  /** The index of the first element that satisfies `p`, or -1: what
      `find` and `findIndex` look for. */
  function FirstWhere<T>(s: seq<T>, p: T -> bool): (r: int)
    ensures -1 <= r < |s|
    ensures r == -1 <==> forall j :: 0 <= j < |s| ==> !p(s[j])
    ensures r >= 0 ==> p(s[r]) && forall j :: 0 <= j < r ==> !p(s[j])
  {
    if s == [] then -1
    else if p(s[0]) then 0
    else
      var r := FirstWhere(s[1..], p);
      assert forall j :: 1 <= j < |s| ==> s[j] == s[1..][j - 1];
      if r == -1 then -1 else r + 1
  }

  /** `rs.findIndex(r => r[key] === v)` for a string or number `v`: the
      index of the first object whose `key` holds `v`, or -1. */
  function FindIndex(rs: seq<Entries>, key: string, v: Value): (r: int)
    ensures -1 <= r < |rs|
    ensures r == -1 <==> forall j :: 0 <= j < |rs| ==> Get(rs[j], key) != v
    ensures r >= 0 ==> Get(rs[r], key) == v && forall j :: 0 <= j < r ==> Get(rs[j], key) != v
  {
    FirstWhere(rs, (o: Entries) => Get(o, key) == v)
  }

  /** Reading a key back after setting it yields the new value, and every
      other key reads as before. */
  lemma {:induction false} GetSet(o: Entries, key: string, v: Value, k: string)
    ensures Get(Set(o, key, v), k) == if k == key then v else Get(o, k)
    ensures key in Keys(Set(o, key, v))
  {
    if key in Keys(o) {
      GetOverwrite(o, key, v, k);
    } else {
      GetAppend(o, key, v, k);
      KeysAppend(o, (key, v));
    }
  }

  lemma {:induction false} GetOverwrite(o: Entries, key: string, v: Value, k: string)
    requires key in Keys(o)
    ensures Get(Overwrite(o, key, v), k) == if k == key then v else Get(o, k)
  {
    var r := Overwrite(o, key, v);
    assert r[1..] == Overwrite(o[1..], key, v);
    if key in Keys(o[1..]) {
      GetOverwrite(o[1..], key, v, k);
    } else {
      assert o[0].0 == key;
      if k in Keys(o[1..]) {
        GetOverwriteAbsent(o[1..], key, v);
      }
    }
  }

  lemma {:induction false} GetOverwriteAbsent(o: Entries, key: string, v: Value)
    requires key !in Keys(o)
    ensures Overwrite(o, key, v) == o
  {
    if o != [] {
      assert o[0].0 == Keys(o)[0];
      assert Keys(o[1..]) == Keys(o)[1..];
      GetOverwriteAbsent(o[1..], key, v);
    }
  }

  lemma {:induction false} KeysAppend(o: Entries, e: (string, Value))
    ensures Keys(o + [e]) == Keys(o) + [e.0]
  {
  }

  lemma {:induction false} GetAppend(o: Entries, key: string, v: Value, k: string)
    ensures Get(o + [(key, v)], k) == if k == key then v else Get(o, k)
  {
    if o == [] {
      assert Get([(key, v)], k) == if k == key then v else Undefined;
    } else {
      var r := o + [(key, v)];
      assert r[1..] == o[1..] + [(key, v)];
      assert r[0] == o[0];
      GetAppend(o[1..], key, v, k);
      KeysAppend(o[1..], (key, v));
    }
  }

  /** Spreading `src` onto `o` gives every key of `src` its value there and
      leaves every other key as it was in `o`. */
  lemma {:induction false} GetAssign(o: Entries, src: Entries, k: string)
    ensures Get(Assign(o, src), k) == if k in Keys(src) then Get(src, k) else Get(o, k)
    decreases src
  {
    if src != [] {
      var o' := Set(o, src[0].0, src[0].1);
      GetAssign(o', src[1..], k);
      GetSet(o, src[0].0, src[0].1, k);
    }
  }

  /** `{...a, ...b}` reads a key from `b` when `b` has it and from `a` otherwise. */
  lemma GetSpread(a: Entries, b: Entries, k: string)
    ensures Get(Spread(a, b), k) == if k in Keys(b) then Get(b, k) else Get(a, k)
  {
    GetAssign(Assign([], a), b, k);
    GetAssign([], a, k);
  }

  /** The same, for every key at once. */
  lemma SpreadReads(a: Entries, b: Entries)
    ensures forall k :: Get(Spread(a, b), k) == if k in Keys(b) then Get(b, k) else Get(a, k)
  {
    forall k {
      GetSpread(a, b, k);
    }
  }
}
