/**
 * The slice of JavaScript value semantics that the option handling of
 * src/index.ts relies on: numbers with their special values, the
 * `typeof`-distinguished values an options record can hold, truthiness,
 * the coercions performed by `*`, `/`, `-`, `<` and template literals,
 * property lookup, `Object.assign`, and the two string primitives
 * `replace` (first occurrence of a string pattern) and `toUpperCase`.
 */
module Js {

  /** A JavaScript number. Finite values are exact reals (no rounding, no signed zero). */
  datatype Num = Finite(r: real) | NaN | PosInf | NegInf

  predicate IsZero(a: Num) { a.Finite? && a.r == 0.0 }

  predicate Positive(a: Num) { a.PosInf? || (a.Finite? && a.r > 0.0) }

  function Neg(a: Num): Num {
    match a
    case Finite(x) => Finite(-x)
    case NaN => NaN
    case PosInf => NegInf
    case NegInf => PosInf
  }

  function Add(a: Num, b: Num): Num {
    match (a, b)
    case (Finite(x), Finite(y)) => Finite(x + y)
    case (NaN, _) => NaN
    case (_, NaN) => NaN
    case (PosInf, NegInf) => NaN
    case (NegInf, PosInf) => NaN
    case (PosInf, _) => PosInf
    case (NegInf, _) => NegInf
    case (_, PosInf) => PosInf
    case (_, NegInf) => NegInf
  }

  function Sub(a: Num, b: Num): Num { Add(a, Neg(b)) }

  function Mul(a: Num, b: Num): Num {
    if a.NaN? || b.NaN? then NaN
    else if a.Finite? && b.Finite? then Finite(a.r * b.r)
    else if IsZero(a) || IsZero(b) then NaN
    else if Positive(a) == Positive(b) then PosInf
    else NegInf
  }

  /** IEEE division; a zero divisor is taken as +0, since signed zero is not modelled. */
  function Div(a: Num, b: Num): Num {
    if a.NaN? || b.NaN? then NaN
    else if a.Finite? && b.Finite? then
      if b.r != 0.0 then Finite(a.r / b.r)
      else if a.r == 0.0 then NaN
      else if a.r > 0.0 then PosInf
      else NegInf
    else if a.Finite? then Finite(0.0)
    else if b.Finite? then
      (if a.PosInf? == (b.r >= 0.0) then PosInf else NegInf)
    else NaN
  }

  /** The relational `a < b`; every comparison with NaN is false. */
  predicate Less(a: Num, b: Num) {
    match (a, b)
    case (Finite(x), Finite(y)) => x < y
    case (NegInf, NegInf) => false
    case (NegInf, NaN) => false
    case (NegInf, _) => true
    case (PosInf, _) => false
    case (NaN, _) => false
    case (Finite(_), PosInf) => true
    case (Finite(_), _) => false
  }

  predicate TruthyNum(a: Num) { !a.NaN? && !IsZero(a) }

  /**
   * The host's number parsing and printing. `parse` is `parseFloat`, `show`
   * is the canonical text of a finite number (`'' + n`), and `coerce` is the
   * conversion of a string to a number that arithmetic operators apply.
   */
  datatype NumberFormat = NumberFormat(parse: string -> Num, show: real -> string, coerce: string -> Num)

  /** The text of a number as `'' + n` produces it. */
  function ShowNum(fmt: NumberFormat, n: Num): string {
    match n
    case Finite(x) => fmt.show(x)
    case NaN => "NaN"
    case PosInf => "Infinity"
    case NegInf => "-Infinity"
  }

  predicate NumeralChar(c: char) {
    c in "0123456789.-+e"
  }

  /**
   * What JavaScript guarantees about the text of a finite number: it is
   * made of digits, a sign, a decimal point and an exponent marker.
   */
  ghost predicate NumeralFormatter(fmt: NumberFormat) {
    forall x: real :: |fmt.show(x)| > 0 && forall i :: 0 <= i < |fmt.show(x)| ==> NumeralChar(fmt.show(x)[i])
  }

  /** A value as `typeof` tells them apart inside an options record. */
  datatype Value =
    | Undefined
    | Null
    | Bool(b: bool)
    | Number(n: Num)
    | Str(s: string)
    | Obj(entries: seq<Entry>)

  /** One own property of an object, in `Object.keys` order. */
  datatype Entry = Entry(key: string, val: Value)

  predicate Truthy(v: Value) {
    match v
    case Undefined => false
    case Null => false
    case Bool(b) => b
    case Number(n) => TruthyNum(n)
    case Str(s) => s != ""
    case Obj(_) => true
  }

  /** `a || b`. */
  function Or(a: Value, b: Value): Value { if Truthy(a) then a else b }

  /** The numeric coercion applied by `*`, `/`, `-` and `<`. */
  function ToNumber(fmt: NumberFormat, v: Value): Num {
    match v
    case Undefined => NaN
    case Null => Finite(0.0)
    case Bool(b) => if b then Finite(1.0) else Finite(0.0)
    case Number(n) => n
    case Str(s) => fmt.coerce(s)
    case Obj(_) => NaN
  }

  /** The text a value contributes to a template literal or to `+` with a string. */
  function ToText(fmt: NumberFormat, v: Value): string {
    match v
    case Undefined => "undefined"
    case Null => "null"
    case Bool(b) => if b then "true" else "false"
    case Number(n) => ShowNum(fmt, n)
    case Str(s) => s
    case Obj(_) => "[object Object]"
  }

  function Keys(es: seq<Entry>): (ks: seq<string>)
    ensures |ks| == |es|
    ensures forall i :: 0 <= i < |es| ==> ks[i] == es[i].key
  {
    if es == [] then [] else [es[0].key] + Keys(es[1..])
  }

  /** An object never has two own properties with the same key. */
  predicate DistinctKeys(es: seq<Entry>) {
    forall i, j :: 0 <= i < j < |es| ==> es[i].key != es[j].key
  }

  predicate HasKey(es: seq<Entry>, k: string) {
    exists i :: 0 <= i < |es| && es[i].key == k
  }

  /** Property access `obj[k]`: the value of key `k`, or `undefined` when it is absent. */
  function Lookup(es: seq<Entry>, k: string): (v: Value)
    ensures !HasKey(es, k) ==> v == Undefined
    ensures forall i :: 0 <= i < |es| && es[i].key == k && (forall j :: 0 <= j < i ==> es[j].key != k) ==> v == es[i].val
  {
    if es == [] then Undefined
    else if es[0].key == k then es[0].val
    else Lookup(es[1..], k)
  }

  /** Assignment `obj[k] = v`: an existing key keeps its place, a new key goes last. */
  function Put(es: seq<Entry>, k: string, v: Value): seq<Entry> {
    if es == [] then [Entry(k, v)]
    else if es[0].key == k then [Entry(k, v)] + es[1..]
    else [es[0]] + Put(es[1..], k, v)
  }

  /** `Object.assign(target, source)`: the source's properties are assigned one by one, in order. */
  function Assign(target: seq<Entry>, source: seq<Entry>): seq<Entry>
    decreases |source|
  {
    if source == [] then target
    else Assign(Put(target, source[0].key, source[0].val), source[1..])
  }

  lemma {:induction false} PutLookup(es: seq<Entry>, k: string, v: Value, q: string)
    ensures Lookup(Put(es, k, v), q) == if q == k then v else Lookup(es, q)
  {
    if es != [] && es[0].key != k {
      PutLookup(es[1..], k, v, q);
    }
  }

  /** The keys of an object with one more property in front. */
  lemma ConsKeys(e: Entry, rest: seq<Entry>)
    ensures forall q :: HasKey([e] + rest, q) <==> q == e.key || HasKey(rest, q)
    ensures DistinctKeys([e] + rest) <==> DistinctKeys(rest) && !HasKey(rest, e.key)
  {
    var c := [e] + rest;
    assert c[0] == e;
    forall q | HasKey(c, q) ensures q == e.key || HasKey(rest, q) {
      var i :| 0 <= i < |c| && c[i].key == q;
      if i > 0 { assert rest[i - 1] == c[i]; }
    }
    forall q | HasKey(rest, q) ensures HasKey(c, q) {
      var i :| 0 <= i < |rest| && rest[i].key == q;
      assert c[i + 1] == rest[i];
    }
    if DistinctKeys(c) {
      forall i, j | 0 <= i < j < |rest| ensures rest[i].key != rest[j].key {
        assert c[i + 1] == rest[i] && c[j + 1] == rest[j];
      }
      forall m | 0 <= m < |rest| ensures rest[m].key != e.key {
        assert c[m + 1] == rest[m];
      }
    }
    if DistinctKeys(rest) && !HasKey(rest, e.key) {
      forall i, j | 0 <= i < j < |c| ensures c[i].key != c[j].key {
        assert c[j] == rest[j - 1];
        if i > 0 { assert c[i] == rest[i - 1]; }
      }
    }
  }

  lemma {:induction false} PutKeys(es: seq<Entry>, k: string, v: Value)
    requires DistinctKeys(es)
    ensures DistinctKeys(Put(es, k, v))
    ensures forall q :: HasKey(Put(es, k, v), q) <==> q == k || HasKey(es, q)
  {
    var p := Put(es, k, v);
    if es == [] {
      assert p == [Entry(k, v)] + es;
      ConsKeys(Entry(k, v), es);
    } else {
      var rest := es[1..];
      assert es == [es[0]] + rest;
      ConsKeys(es[0], rest);
      if es[0].key == k {
        assert p == [Entry(k, v)] + rest;
        ConsKeys(Entry(k, v), rest);
      } else {
        PutKeys(rest, k, v);
        var pr := Put(rest, k, v);
        assert p == [es[0]] + pr;
        ConsKeys(es[0], pr);
      }
    }
  }

  /** `Object.assign` is last-writer-wins: a key of the (duplicate-free) source overrides the target. */
  lemma {:induction false} AssignLookup(target: seq<Entry>, source: seq<Entry>, q: string)
    requires DistinctKeys(source)
    ensures Lookup(Assign(target, source), q) == if HasKey(source, q) then Lookup(source, q) else Lookup(target, q)
    decreases |source|
  {
    if source != [] {
      var rest := source[1..];
      assert DistinctKeys(rest) by {
        forall i, j | 0 <= i < j < |rest| ensures rest[i].key != rest[j].key {
          assert rest[i] == source[i + 1] && rest[j] == source[j + 1];
        }
      }
      var t' := Put(target, source[0].key, source[0].val);
      AssignLookup(t', rest, q);
      PutLookup(target, source[0].key, source[0].val, q);
      if HasKey(rest, q) {
        var m :| 0 <= m < |rest| && rest[m].key == q;
        assert source[m + 1].key == q;
        assert q != source[0].key;
        assert HasKey(source, q);
      } else if q == source[0].key {
        assert HasKey(source, q);
      } else {
        forall i | 0 <= i < |source| ensures source[i].key != q {
          if i > 0 { assert rest[i - 1] == source[i]; }
        }
      }
    }
  }

  lemma {:induction false} AssignKeys(target: seq<Entry>, source: seq<Entry>)
    requires DistinctKeys(target)
    ensures DistinctKeys(Assign(target, source))
    ensures forall q :: HasKey(Assign(target, source), q) <==> HasKey(target, q) || HasKey(source, q)
    decreases |source|
  {
    if source != [] {
      var rest := source[1..];
      var t' := Put(target, source[0].key, source[0].val);
      PutKeys(target, source[0].key, source[0].val);
      AssignKeys(t', rest);
      forall q ensures HasKey(source, q) <==> q == source[0].key || HasKey(rest, q) {
        if HasKey(rest, q) {
          var m :| 0 <= m < |rest| && rest[m].key == q;
          assert source[m + 1].key == q;
        }
        if HasKey(source, q) && q != source[0].key {
          var m :| 0 <= m < |source| && source[m].key == q;
          assert rest[m - 1].key == q;
        }
      }
    }
  }

  /** `pat` occurs in `s` at index `j`. */
  predicate OccursAt(s: string, pat: string, j: int) {
    0 <= j && j + |pat| <= |s| && s[j..j + |pat|] == pat
  }

  /** The index of the first occurrence of `pat` at or after `from`, or -1 (`indexOf`). */
  function IndexOfFrom(s: string, pat: string, from: nat): (i: int)
    ensures i == -1 || (from <= i && OccursAt(s, pat, i))
    ensures forall j :: from <= j && (i == -1 || j < i) ==> !OccursAt(s, pat, j)
    decreases |s| - from
  {
    if from + |pat| > |s| then -1
    else if s[from..from + |pat|] == pat then from
    else IndexOfFrom(s, pat, from + 1)
  }

  /** `s.replace(pat, '')` for a string pattern: only the first occurrence is removed. */
  function RemoveFirst(s: string, pat: string): string {
    var i := IndexOfFrom(s, pat, 0);
    if i < 0 then s else s[..i] + s[i + |pat|..]
  }

  function UpperChar(c: char): char {
    if 'a' <= c <= 'z' then (c as int - 'a' as int + 'A' as int) as char else c
  }

  /** `toUpperCase`, restricted to the ASCII letters. */
  function ToUpper(s: string): (u: string)
    ensures |u| == |s|
    ensures forall i :: 0 <= i < |s| ==> u[i] == UpperChar(s[i])
  {
    if s == [] then [] else [UpperChar(s[0])] + ToUpper(s[1..])
  }

  /** `arr.join(sep)`. */
  function Join(parts: seq<string>, sep: string): string {
    if parts == [] then ""
    else if |parts| == 1 then parts[0]
    else parts[0] + sep + Join(parts[1..], sep)
  }

  /** `arr.join('')`. */
  function Concat(parts: seq<string>): string {
    if parts == [] then "" else parts[0] + Concat(parts[1..])
  }
}
