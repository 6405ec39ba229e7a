/**
 * The unit converter of src/index.ts: `string2Pixels` turns a measurement
 * such as "10cm" into a pixel count at a DPI, and `options2Pixel` applies it
 * to every string of a (nested) options record.
 */
module Units {
  import opened Js
  import opened Outcomes

  const DefaultDpi: Value := Number(Finite(300.0))

  /** The DPI `string2Pixels` works with: the parameter defaults to 300 only when it is undefined. */
  function DpiOrDefault(dpi: Value): Value {
    if dpi.Undefined? then DefaultDpi else dpi
  }

  /** The unit: what is left of `value` once the canonical text of its number is removed, upper-cased. */
  function Suffix(fmt: NumberFormat, value: string): string {
    ToUpper(RemoveFirst(value, ShowNum(fmt, fmt.parse(value))))
  }

  predicate IsPixelUnit(u: string) { u == "" || u == "PX" }

  predicate IsLengthUnit(u: string) { u == "IN" || u == "CM" || u == "MM" }

  /** A string that `string2Pixels` hands back unchanged, whatever the DPI. */
  predicate PassThrough(fmt: NumberFormat, s: string) {
    var u := Suffix(fmt, s);
    !IsPixelUnit(u) && !IsLengthUnit(u)
  }

  /** The number of inches in `n` units of `u`. */
  function Inches(n: Num, u: string): Num
    requires IsLengthUnit(u)
  {
    if u == "IN" then n
    else if u == "CM" then Div(n, Finite(2.54))
    else Div(n, Finite(25.4))
  }

  /** `string2Pixels(value, dpi)`. */
  function StringToPixels(fmt: NumberFormat, value: string, dpi: Value): (r: Result<Value>)
    ensures r.Err? <==> IsLengthUnit(Suffix(fmt, value)) && !Truthy(DpiOrDefault(dpi))
    ensures r.Err? ==> r.error == InvalidDpi(DpiOrDefault(dpi))
    ensures r == Ok(Str(value)) <==> PassThrough(fmt, value)
    ensures r.Ok? ==> r.value.Number? || r.value.Str?
  {
    var n := fmt.parse(value);
    var u := Suffix(fmt, value);
    var d := DpiOrDefault(dpi);
    if IsPixelUnit(u) then Ok(Number(n))
    else if !IsLengthUnit(u) then Ok(Str(value))
    else if !Truthy(d) then Err(InvalidDpi(d))
    else Ok(Number(Mul(Inches(n, u), ToNumber(fmt, d))))
  }

  /** A bare number or a `px` measurement is its own pixel count, and no DPI is consulted. */
  lemma PixelUnitIgnoresDpi(fmt: NumberFormat, value: string, dpi: Value)
    requires IsPixelUnit(Suffix(fmt, value))
    ensures StringToPixels(fmt, value, dpi) == Ok(Number(fmt.parse(value)))
  {
  }

  /**
   * The conversion table for finite measurements at a finite non-zero DPI `d`:
   * the pixel count `p` of `n` inches is `n * d`, and `p` is the number of
   * pixels that 2.54 cm or 25.4 mm per inch give.
   */
  lemma LengthUnitTable(fmt: NumberFormat, value: string, dpi: Value, n: real, d: real)
    requires fmt.parse(value) == Finite(n)
    requires Truthy(DpiOrDefault(dpi)) && ToNumber(fmt, DpiOrDefault(dpi)) == Finite(d)
    requires IsLengthUnit(Suffix(fmt, value))
    ensures StringToPixels(fmt, value, dpi).Ok?
    ensures StringToPixels(fmt, value, dpi).value.Number?
    ensures StringToPixels(fmt, value, dpi).value.n.Finite?
    ensures var p := StringToPixels(fmt, value, dpi).value.n.r;
      && (Suffix(fmt, value) == "IN" ==> p == n * d)
      && (Suffix(fmt, value) == "CM" ==> p * 2.54 == n * d)
      && (Suffix(fmt, value) == "MM" ==> p * 25.4 == n * d)
  {
    var u := Suffix(fmt, value);
    assert StringToPixels(fmt, value, dpi) == Ok(Number(Mul(Inches(Finite(n), u), Finite(d))));
    InchesScale(n, u, d);
  }

  lemma InchesScale(n: real, u: string, d: real)
    requires IsLengthUnit(u)
    ensures Mul(Inches(Finite(n), u), Finite(d)).Finite?
    ensures var p := Mul(Inches(Finite(n), u), Finite(d)).r;
      && (u == "IN" ==> p == n * d)
      && (u == "CM" ==> p * 2.54 == n * d)
      && (u == "MM" ==> p * 25.4 == n * d)
  {
    if u == "CM" {
      assert (n / 2.54) * d * 2.54 == n * d;
    } else if u == "MM" {
      assert (n / 25.4) * d * 25.4 == n * d;
    }
  }

  /** A DPI that is not given behaves exactly like a DPI of 300. */
  lemma UndefinedDpiIs300(fmt: NumberFormat, value: string)
    ensures StringToPixels(fmt, value, Undefined) == StringToPixels(fmt, value, Number(Finite(300.0)))
  {
  }

  /** A measurement in inches, centimetres or millimetres at a falsy DPI fails. */
  lemma FalsyDpiFails(fmt: NumberFormat, value: string, dpi: Value)
    requires IsLengthUnit(Suffix(fmt, value)) && !dpi.Undefined? && !Truthy(dpi)
    ensures StringToPixels(fmt, value, dpi) == Err(InvalidDpi(dpi))
  {
  }

  // ---------------------------------------------------------------------
  // Worked examples. Each takes as hypotheses what `parseFloat` and the
  // number formatter give for the literals involved.

  /** The unit of a string that starts with the text of its own number is the upper-cased rest. */
  lemma SuffixOf(fmt: NumberFormat, num: string, rest: string)
    requires ShowNum(fmt, fmt.parse(num + rest)) == num
    ensures Suffix(fmt, num + rest) == ToUpper(rest)
  {
    var value := num + rest;
    assert value[0..|num|] == num;
    assert IndexOfFrom(value, num, 0) == 0;
    assert value[|num|..] == rest;
  }

  /** A length unit at a truthy DPI: the number in inches times the DPI. */
  lemma LengthConverted(fmt: NumberFormat, value: string, dpi: Value, u: string)
    requires Suffix(fmt, value) == u && IsLengthUnit(u) && Truthy(DpiOrDefault(dpi))
    ensures StringToPixels(fmt, value, dpi) == Ok(Number(Mul(Inches(fmt.parse(value), u), ToNumber(fmt, DpiOrDefault(dpi)))))
  {
  }

  lemma OneInchAt300(fmt: NumberFormat)
    requires fmt.parse("1in") == Finite(1.0) && fmt.show(1.0) == "1"
    ensures StringToPixels(fmt, "1in", Undefined) == Ok(Number(Finite(300.0)))
  {
    assert "1" + "in" == "1in";
    SuffixOf(fmt, "1", "in");
    assert ToUpper("in") == "IN";
    LengthConverted(fmt, "1in", Undefined, "IN");
  }

  lemma CentimetresAt300(fmt: NumberFormat)
    requires fmt.parse("2.54cm") == Finite(2.54) && fmt.show(2.54) == "2.54"
    ensures StringToPixels(fmt, "2.54cm", Undefined) == Ok(Number(Finite(300.0)))
  {
    assert "2.54" + "cm" == "2.54cm";
    SuffixOf(fmt, "2.54", "cm");
    assert ToUpper("cm") == "CM";
    LengthConverted(fmt, "2.54cm", Undefined, "CM");
    assert Inches(Finite(2.54), "CM") == Finite(1.0);
  }

  lemma MillimetresAt300(fmt: NumberFormat)
    requires fmt.parse("25.4mm") == Finite(25.4) && fmt.show(25.4) == "25.4"
    ensures StringToPixels(fmt, "25.4mm", Undefined) == Ok(Number(Finite(300.0)))
  {
    assert "25.4" + "mm" == "25.4mm";
    SuffixOf(fmt, "25.4", "mm");
    assert ToUpper("mm") == "MM";
    LengthConverted(fmt, "25.4mm", Undefined, "MM");
    assert Inches(Finite(25.4), "MM") == Finite(1.0);
  }

  lemma PixelsAtZeroDpi(fmt: NumberFormat)
    requires fmt.parse("42px") == Finite(42.0) && fmt.show(42.0) == "42"
    ensures StringToPixels(fmt, "42px", Number(Finite(0.0))) == Ok(Number(Finite(42.0)))
  {
    assert "42" + "px" == "42px";
    SuffixOf(fmt, "42", "px");
    assert ToUpper("px") == "PX";
  }

  lemma InchAtZeroDpiFails(fmt: NumberFormat)
    requires fmt.parse("1in") == Finite(1.0) && fmt.show(1.0) == "1"
    ensures StringToPixels(fmt, "1in", Number(Finite(0.0))) == Err(InvalidDpi(Number(Finite(0.0))))
  {
    assert "1" + "in" == "1in";
    SuffixOf(fmt, "1", "in");
    assert ToUpper("in") == "IN";
  }

  /** "1.50in" is not converted: removing "1.5" leaves the suffix "0IN". */
  lemma TrailingZeroPassesThrough(fmt: NumberFormat, dpi: Value)
    requires fmt.parse("1.50in") == Finite(1.5) && fmt.show(1.5) == "1.5"
    ensures StringToPixels(fmt, "1.50in", dpi) == Ok(Str("1.50in"))
  {
    assert "1.5" + "0in" == "1.50in";
    SuffixOf(fmt, "1.5", "0in");
    assert ToUpper("0in") == "0IN";
  }

  /** A colour name is not a number: the text of NaN does not occur in it and it passes through. */
  lemma ColourPassesThrough(fmt: NumberFormat, dpi: Value)
    requires fmt.parse("black") == NaN
    ensures StringToPixels(fmt, "black", dpi) == Ok(Str("black"))
  {
    NotOccurring("black", "NaN");
    assert ToUpper("black") == "BLACK";
  }

  /** A pattern whose first character is missing from `s` does not occur in it. */
  lemma NotOccurring(s: string, pat: string)
    requires |pat| > 0 && pat[0] !in s
    ensures RemoveFirst(s, pat) == s
  {
    assert forall j :: 0 <= j && j + |pat| <= |s| ==> s[j..j + |pat|][0] == s[j];
  }

  // ---------------------------------------------------------------------
  // options2Pixel

  /** `obj.dpi || dpi`: the DPI that applies to the strings of `obj` and to the objects nested in it. */
  function EffectiveDpi(obj: seq<Entry>, dpi: Value): Value {
    Or(Lookup(obj, "dpi"), dpi)
  }

  /** What `ret[k]` becomes for a property whose value is `v`, at the effective DPI `dpi`. */
  function NormaliseValue(fmt: NumberFormat, v: Value, dpi: Value): Result<Value>
    decreases v
  {
    match v
    case Str(s) => StringToPixels(fmt, s, dpi)
    case Null => Err(NullDpiRead)
    case Obj(es) =>
      (match NormaliseEntries(fmt, es, EffectiveDpi(es, dpi))
       case Ok(r) => Ok(Obj(r))
       case Err(e) => Err(e))
    case _ => Ok(v)
  }

  /** The properties of `ret`, filled in `Object.keys` order; the first property that throws ends the walk. */
  function NormaliseEntries(fmt: NumberFormat, es: seq<Entry>, dpi: Value): Result<seq<Entry>>
    decreases es
  {
    if es == [] then Ok([])
    else
      match NormaliseValue(fmt, es[0].val, dpi)
      case Err(e) => Err(e)
      case Ok(v) =>
        match NormaliseEntries(fmt, es[1..], dpi)
        case Err(e) => Err(e)
        case Ok(rest) => Ok([Entry(es[0].key, v)] + rest)
  }

  /** The result of `options2Pixel(obj, dpi)`. */
  function NormaliseObject(fmt: NumberFormat, obj: seq<Entry>, dpi: Value): Result<seq<Entry>> {
    NormaliseEntries(fmt, obj, EffectiveDpi(obj, dpi))
  }

  function Prefixed(front: seq<Entry>, r: Result<seq<Entry>>): Result<seq<Entry>> {
    match r
    case Ok(rest) => Ok(front + rest)
    case Err(e) => Err(e)
  }

  /** `options2Pixel(obj, dpi)`: builds `ret` key by key, recursing into nested objects. */
  method Options2Pixel(fmt: NumberFormat, obj: seq<Entry>, dpi: Value) returns (r: Result<seq<Entry>>)
    ensures r == NormaliseObject(fmt, obj, dpi)
    decreases obj
  {
    var ret: seq<Entry> := [];
    var eff := Or(Lookup(obj, "dpi"), dpi);
    var i := 0;
    assert obj[0..] == obj;
    PrefixedEmpty(NormaliseEntries(fmt, obj, eff));
    while i < |obj|
      invariant 0 <= i <= |obj|
      invariant NormaliseEntries(fmt, obj, eff) == Prefixed(ret, NormaliseEntries(fmt, obj[i..], eff))
    {
      var k, v := obj[i].key, obj[i].val;
      var converted: Value;
      match v {
        case Str(s) =>
          var c := StringToPixels(fmt, s, eff);
          if c.Err? {
            WalkStops(fmt, obj, i, eff, ret);
            return Err(c.error);
          }
          converted := c.value;
        case Null =>
          WalkStops(fmt, obj, i, eff, ret);
          return Err(NullDpiRead);
        case Obj(inner) =>
          var c := Options2Pixel(fmt, inner, eff);
          if c.Err? {
            WalkStops(fmt, obj, i, eff, ret);
            return Err(c.error);
          }
          converted := Obj(c.value);
        case _ =>
          converted := v;
      }
      assert NormaliseValue(fmt, v, eff) == Ok(converted);
      WalkSteps(fmt, obj, i, eff, ret, converted);
      // `ret[k] = converted` on a key `ret` does not hold yet: the model appends, as JS does,
      // since a JS object never holds a key twice (`Obj` lists built by `Put` and `Assign` keep keys distinct).
      ret := ret + [Entry(k, converted)];
      i := i + 1;
    }
    assert obj[i..] == [];
    assert ret + [] == ret;
    r := Ok(ret);
  }

  /** A property that fails to convert ends the walk with its own error. */
  lemma WalkStops(fmt: NumberFormat, obj: seq<Entry>, i: nat, eff: Value, ret: seq<Entry>)
    requires i < |obj| && NormaliseValue(fmt, obj[i].val, eff).Err?
    ensures Prefixed(ret, NormaliseEntries(fmt, obj[i..], eff)) == Err(NormaliseValue(fmt, obj[i].val, eff).error)
  {
    assert obj[i..][0] == obj[i];
  }

  /** A property that converts to `converted` moves from the rest of the walk to `ret`. */
  lemma WalkSteps(fmt: NumberFormat, obj: seq<Entry>, i: nat, eff: Value, ret: seq<Entry>, converted: Value)
    requires i < |obj| && NormaliseValue(fmt, obj[i].val, eff) == Ok(converted)
    ensures Prefixed(ret, NormaliseEntries(fmt, obj[i..], eff))
         == Prefixed(ret + [Entry(obj[i].key, converted)], NormaliseEntries(fmt, obj[i + 1..], eff))
  {
    assert obj[i..][0] == obj[i] && obj[i..][1..] == obj[i + 1..];
    PrefixedTwice(ret, Entry(obj[i].key, converted), NormaliseEntries(fmt, obj[i + 1..], eff));
  }

  lemma PrefixedEmpty(r: Result<seq<Entry>>)
    ensures Prefixed([], r) == r
  {
    if r.Ok? {
      assert [] + r.value == r.value;
    }
  }

  lemma PrefixedTwice(front: seq<Entry>, e: Entry, r: Result<seq<Entry>>)
    ensures Prefixed(front, Prefixed([e], r)) == Prefixed(front + [e], r)
  {
    if r.Ok? {
      assert front + ([e] + r.value) == (front + [e]) + r.value;
    }
  }

  // ---------------------------------------------------------------------
  // What options2Pixel promises

  /**
   * The walk over the properties succeeds iff every property converts; it then
   * yields the same keys in the same order with each value converted on its
   * own.
   */
  lemma {:induction false} EntriesShape(fmt: NumberFormat, es: seq<Entry>, dpi: Value)
    ensures NormaliseEntries(fmt, es, dpi).Ok? <==> forall i :: 0 <= i < |es| ==> NormaliseValue(fmt, es[i].val, dpi).Ok?
    ensures NormaliseEntries(fmt, es, dpi).Ok? ==>
      var r := NormaliseEntries(fmt, es, dpi).value;
      && |r| == |es|
      && forall i :: 0 <= i < |es| ==> r[i].key == es[i].key && NormaliseValue(fmt, es[i].val, dpi) == Ok(r[i].val)
    decreases es
  {
    if es != [] {
      var rest := es[1..];
      EntriesShape(fmt, rest, dpi);
      assert forall i :: 0 < i < |es| ==> es[i] == rest[i - 1];
      var head := NormaliseValue(fmt, es[0].val, dpi);
      var tail := NormaliseEntries(fmt, rest, dpi);
      if head.Ok? && tail.Ok? {
        var r := NormaliseEntries(fmt, es, dpi).value;
        assert r == [Entry(es[0].key, head.value)] + tail.value;
        assert forall i :: 0 < i < |es| ==> r[i] == tail.value[i - 1];
      }
    }
  }

  /** A failed walk fails with the error of the first property that does not convert. */
  lemma {:induction false} EntriesFirstError(fmt: NumberFormat, es: seq<Entry>, dpi: Value)
    ensures NormaliseEntries(fmt, es, dpi).Err? ==>
      exists i :: 0 <= i < |es|
        && NormaliseValue(fmt, es[i].val, dpi) == Err(NormaliseEntries(fmt, es, dpi).error)
        && forall j :: 0 <= j < i ==> NormaliseValue(fmt, es[j].val, dpi).Ok?
    decreases es
  {
    if es != [] {
      var rest := es[1..];
      var head := NormaliseValue(fmt, es[0].val, dpi);
      var tail := NormaliseEntries(fmt, rest, dpi);
      if head.Ok? && tail.Err? {
        EntriesFirstError(fmt, rest, dpi);
        var i :| 0 <= i < |rest|
          && NormaliseValue(fmt, rest[i].val, dpi) == Err(tail.error)
          && forall j :: 0 <= j < i ==> NormaliseValue(fmt, rest[j].val, dpi).Ok?;
        assert es[i + 1] == rest[i];
        assert forall j :: 0 <= j < i + 1 ==> NormaliseValue(fmt, es[j].val, dpi).Ok? by {
          forall j | 0 <= j < i + 1 ensures NormaliseValue(fmt, es[j].val, dpi).Ok? {
            if j > 0 { assert es[j] == rest[j - 1]; }
          }
        }
      }
    }
  }

  /** A DPI that is undefined (so `string2Pixels` takes 300) or truthy: no length unit can fail under it. */
  predicate DpiInForce(dpi: Value) { dpi.Undefined? || Truthy(dpi) }

  /**
   * Under a DPI in force, a value fails to normalise only on a `null`
   * reached somewhere inside it: `obj.dpi || dpi` keeps the DPI in force, so
   * 'Invalid value for dpi' cannot arise.
   */
  lemma {:induction false} ValueOnlyNullFails(fmt: NumberFormat, v: Value, dpi: Value)
    requires DpiInForce(dpi)
    ensures NormaliseValue(fmt, v, dpi).Err? ==> NormaliseValue(fmt, v, dpi).error == NullDpiRead
    decreases v
  {
    match v
    case Obj(es) => EntriesOnlyNullFails(fmt, es, EffectiveDpi(es, dpi));
    case _ =>
  }

  lemma {:induction false} EntriesOnlyNullFails(fmt: NumberFormat, es: seq<Entry>, dpi: Value)
    requires DpiInForce(dpi)
    ensures NormaliseEntries(fmt, es, dpi).Err? ==> NormaliseEntries(fmt, es, dpi).error == NullDpiRead
    decreases es
  {
    if es != [] {
      ValueOnlyNullFails(fmt, es[0].val, dpi);
      EntriesOnlyNullFails(fmt, es[1..], dpi);
    }
  }

  /**
   * `options2Pixel(obj, dpi)` has exactly the keys of `obj`, in order. With
   * `eff` the DPI `obj.dpi || dpi`: a string is converted by `string2Pixels` at
   * `eff`, a nested object is normalised with `eff` as its default DPI, and
   * every other value is copied; a `null` property fails the call.
   */
  lemma ObjectShape(fmt: NumberFormat, obj: seq<Entry>, dpi: Value)
    ensures var eff := Or(Lookup(obj, "dpi"), dpi);
      NormaliseObject(fmt, obj, dpi).Ok? <==>
        forall i :: 0 <= i < |obj| ==> NormaliseValue(fmt, obj[i].val, eff).Ok?
    ensures var eff := Or(Lookup(obj, "dpi"), dpi);
      NormaliseObject(fmt, obj, dpi).Ok? ==>
        var r := NormaliseObject(fmt, obj, dpi).value;
        && Keys(r) == Keys(obj)
        && (forall i :: 0 <= i < |obj| && obj[i].val.Str? ==> StringToPixels(fmt, obj[i].val.s, eff) == Ok(r[i].val))
        && (forall i :: 0 <= i < |obj| && obj[i].val.Obj? ==>
              r[i].val.Obj? && NormaliseObject(fmt, obj[i].val.entries, eff) == Ok(r[i].val.entries))
        && (forall i :: 0 <= i < |obj| && !obj[i].val.Str? && !obj[i].val.Obj? ==> r[i].val == obj[i].val)
    ensures (exists i :: 0 <= i < |obj| && obj[i].val.Null?) ==> NormaliseObject(fmt, obj, dpi).Err?
  {
    var eff := Or(Lookup(obj, "dpi"), dpi);
    EntriesShape(fmt, obj, eff);
    if NormaliseObject(fmt, obj, dpi).Ok? {
      var r := NormaliseObject(fmt, obj, dpi).value;
      SameKeysPointwise(r, obj);
      forall i | 0 <= i < |obj|
        ensures ValueConverted(fmt, obj[i].val, eff, r[i].val)
      {
        ValueShape(fmt, obj[i].val, eff, r[i].val);
      }
    }
    forall i | 0 <= i < |obj| && obj[i].val.Null?
      ensures NormaliseValue(fmt, obj[i].val, eff).Err?
    {
    }
  }

  /** How one property's value `v` relates to its converted value `r` at the DPI `dpi`. */
  predicate ValueConverted(fmt: NumberFormat, v: Value, dpi: Value, r: Value) {
    && (v.Str? ==> StringToPixels(fmt, v.s, dpi) == Ok(r))
    && (v.Obj? ==> r.Obj? && NormaliseObject(fmt, v.entries, dpi) == Ok(r.entries))
    && (!v.Str? && !v.Obj? ==> r == v)
  }

  lemma ValueShape(fmt: NumberFormat, v: Value, dpi: Value, r: Value)
    requires NormaliseValue(fmt, v, dpi) == Ok(r)
    ensures ValueConverted(fmt, v, dpi, r)
  {
  }

  lemma SameKeysPointwise(a: seq<Entry>, b: seq<Entry>)
    requires |a| == |b| && forall i :: 0 <= i < |a| ==> a[i].key == b[i].key
    ensures Keys(a) == Keys(b)
  {
  }

  /** A value `options2Pixel` leaves as it is: no `null`, and only strings that pass through. */
  predicate Settled(fmt: NumberFormat, v: Value)
    decreases v
  {
    match v
    case Str(s) => PassThrough(fmt, s)
    case Null => false
    case Obj(es) => forall i :: 0 <= i < |es| ==> Settled(fmt, es[i].val)
    case _ => true
  }

  lemma {:induction false} SettledValueFixed(fmt: NumberFormat, v: Value, dpi: Value)
    requires Settled(fmt, v)
    ensures NormaliseValue(fmt, v, dpi) == Ok(v)
    decreases v
  {
    match v
    case Obj(es) => SettledEntriesFixed(fmt, es, EffectiveDpi(es, dpi));
    case _ =>
  }

  lemma {:induction false} SettledEntriesFixed(fmt: NumberFormat, es: seq<Entry>, dpi: Value)
    requires forall i :: 0 <= i < |es| ==> Settled(fmt, es[i].val)
    ensures NormaliseEntries(fmt, es, dpi) == Ok(es)
    decreases es
  {
    if es != [] {
      SettledValueFixed(fmt, es[0].val, dpi);
      assert forall i :: 0 <= i < |es[1..]| ==> es[1..][i] == es[i + 1];
      SettledEntriesFixed(fmt, es[1..], dpi);
      assert [Entry(es[0].key, es[0].val)] + es[1..] == es;
    }
  }

  lemma {:induction false} NormalisedValueSettled(fmt: NumberFormat, v: Value, dpi: Value)
    requires NormaliseValue(fmt, v, dpi).Ok?
    ensures Settled(fmt, NormaliseValue(fmt, v, dpi).value)
    decreases v
  {
    match v
    case Obj(es) => NormalisedEntriesSettled(fmt, es, EffectiveDpi(es, dpi));
    case _ =>
  }

  lemma {:induction false} NormalisedEntriesSettled(fmt: NumberFormat, es: seq<Entry>, dpi: Value)
    requires NormaliseEntries(fmt, es, dpi).Ok?
    ensures var r := NormaliseEntries(fmt, es, dpi).value;
      forall i :: 0 <= i < |r| ==> Settled(fmt, r[i].val)
    decreases es
  {
    if es != [] {
      NormalisedValueSettled(fmt, es[0].val, dpi);
      NormalisedEntriesSettled(fmt, es[1..], dpi);
      var r := NormaliseEntries(fmt, es, dpi).value;
      var tail := NormaliseEntries(fmt, es[1..], dpi).value;
      assert r == [Entry(es[0].key, NormaliseValue(fmt, es[0].val, dpi).value)] + tail;
      assert forall i :: 0 < i < |r| ==> r[i] == tail[i - 1];
    }
  }

  /**
   * Normalising twice is normalising once, whatever DPI the second call gets:
   * converted numbers are copied and the strings left over pass through again.
   */
  lemma NormaliseIdempotent(fmt: NumberFormat, obj: seq<Entry>, dpi: Value, dpi': Value)
    requires NormaliseObject(fmt, obj, dpi).Ok?
    ensures NormaliseObject(fmt, NormaliseObject(fmt, obj, dpi).value, dpi') == NormaliseObject(fmt, obj, dpi)
  {
    var r := NormaliseObject(fmt, obj, dpi).value;
    NormalisedEntriesSettled(fmt, obj, EffectiveDpi(obj, dpi));
    SettledEntriesFixed(fmt, r, EffectiveDpi(r, dpi'));
  }

  /** Data with no string and no `null` at any depth. */
  predicate PlainData(v: Value)
    decreases v
  {
    match v
    case Str(_) => false
    case Null => false
    case Obj(es) => forall i :: 0 <= i < |es| ==> PlainData(es[i].val)
    case _ => true
  }

  lemma {:induction false} PlainDataSettled(fmt: NumberFormat, v: Value)
    requires PlainData(v)
    ensures Settled(fmt, v)
    decreases v
  {
    match v
    case Obj(es) =>
      forall i | 0 <= i < |es| ensures Settled(fmt, es[i].val) {
        PlainDataSettled(fmt, es[i].val);
      }
    case _ =>
  }

  /** An object with no string (and no `null`) anywhere is returned unchanged. */
  lemma PlainObjectUnchanged(fmt: NumberFormat, obj: seq<Entry>, dpi: Value)
    requires forall i :: 0 <= i < |obj| ==> PlainData(obj[i].val)
    ensures NormaliseObject(fmt, obj, dpi) == Ok(obj)
  {
    forall i | 0 <= i < |obj| ensures Settled(fmt, obj[i].val) {
      PlainDataSettled(fmt, obj[i].val);
    }
    SettledEntriesFixed(fmt, obj, EffectiveDpi(obj, dpi));
  }

  /**
   * A `dpi` property applies to its own object and to what is nested in it,
   * and to nothing outside: at the top level "1in" is 300 pixels, inside a
   * box with `dpi: 600` it is 600.
   */
  lemma InnerDpiOverridesSubtree(fmt: NumberFormat)
    requires fmt.parse("1in") == Finite(1.0) && fmt.show(1.0) == "1"
    ensures NormaliseObject(fmt,
              [Entry("pageMargin", Str("1in")),
               Entry("box", Obj([Entry("dpi", Number(Finite(600.0))), Entry("boxSpacing", Str("1in"))]))],
              Undefined)
         == Ok([Entry("pageMargin", Number(Finite(300.0))),
                Entry("box", Obj([Entry("dpi", Number(Finite(600.0))), Entry("boxSpacing", Number(Finite(600.0)))]))])
  {
    OneInchAt300(fmt);
    var six := Number(Finite(600.0));
    assert StringToPixels(fmt, "1in", six) == Ok(six);
    var spacing := [Entry("boxSpacing", six)];
    EntriesCons(fmt, Entry("boxSpacing", Str("1in")), [], six, six, []);
    assert [Entry("boxSpacing", Str("1in"))] + [] == [Entry("boxSpacing", Str("1in"))];
    assert [Entry("boxSpacing", six)] + [] == spacing;
    var inner := [Entry("dpi", six), Entry("boxSpacing", Str("1in"))];
    assert inner == [Entry("dpi", six)] + [Entry("boxSpacing", Str("1in"))];
    EntriesCons(fmt, Entry("dpi", six), [Entry("boxSpacing", Str("1in"))], six, six, spacing);
    assert EffectiveDpi(inner, Undefined) == six;
    var box := Obj([Entry("dpi", six)] + spacing);
    assert NormaliseValue(fmt, Obj(inner), Undefined) == Ok(box);
    EntriesCons(fmt, Entry("box", Obj(inner)), [], Undefined, box, []);
    assert [Entry("box", Obj(inner))] + [] == [Entry("box", Obj(inner))];
    assert [Entry("box", box)] + [] == [Entry("box", box)];
    var top := [Entry("pageMargin", Str("1in")), Entry("box", Obj(inner))];
    assert top == [Entry("pageMargin", Str("1in"))] + [Entry("box", Obj(inner))];
    EntriesCons(fmt, Entry("pageMargin", Str("1in")), [Entry("box", Obj(inner))], Undefined,
                Number(Finite(300.0)), [Entry("box", box)]);
    assert EffectiveDpi(top, Undefined) == Undefined;
    assert [Entry("dpi", six)] + spacing == [Entry("dpi", six), Entry("boxSpacing", six)];
    assert [Entry("pageMargin", Number(Finite(300.0)))] + [Entry("box", box)]
        == [Entry("pageMargin", Number(Finite(300.0))), Entry("box", box)];
  }

  /** One property more in front: its normalised value goes in front of the rest's. */
  lemma EntriesCons(fmt: NumberFormat, e: Entry, rest: seq<Entry>, dpi: Value, v: Value, r: seq<Entry>)
    requires NormaliseValue(fmt, e.val, dpi) == Ok(v) && NormaliseEntries(fmt, rest, dpi) == Ok(r)
    ensures NormaliseEntries(fmt, [e] + rest, dpi) == Ok([Entry(e.key, v)] + r)
  {
    assert ([e] + rest)[0] == e && ([e] + rest)[1..] == rest;
  }
}
