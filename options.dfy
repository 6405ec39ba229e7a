/**
 * `mergeOptions` of src/index.ts: `Object.assign({}, initialOptions, def, options)`
 * followed by `options2Pixel`, and the defaults layered by each operation.
 */
module Options {
  import opened Js
  import opened Outcomes
  import opened Units

  /** `initialOptions`. */
  const InitialOptions: seq<Entry> := [
    Entry("quality", Number(Finite(90.0))),
    Entry("flipV", Bool(false)),
    Entry("flipH", Bool(false))
  ]

  /** The per-call defaults of `mosaic`. */
  const MosaicDefaults: seq<Entry> := [
    Entry("background", Str("black")),
    Entry("pageMargin", Number(Finite(0.0))),
    Entry("boxSpacing", Number(Finite(0.0))),
    Entry("pageRotation", Number(Finite(0.0))),
    Entry("columns", Number(Finite(3.0))),
    Entry("rows", Number(Finite(3.0)))
  ]

  /** `Object.assign({}, initialOptions, def, options)`. */
  function Layered(def: seq<Entry>, options: seq<Entry>): seq<Entry> {
    Assign(Assign(Assign([], InitialOptions), def), options)
  }

  /** The result of `mergeOptions(def, options)`. */
  function Merged(fmt: NumberFormat, def: seq<Entry>, options: seq<Entry>): Result<seq<Entry>> {
    NormaliseObject(fmt, Layered(def, options), Undefined)
  }

  /** `mergeOptions(def, options)`. */
  method MergeOptions(fmt: NumberFormat, def: seq<Entry>, options: seq<Entry>) returns (r: Result<seq<Entry>>)
    ensures r == Merged(fmt, def, options)
  {
    var layered := Assign(Assign(Assign([], InitialOptions), def), options);
    r := Options2Pixel(fmt, layered, Undefined);
  }

  /**
   * `mergeOptions` starts `options2Pixel` with an undefined DPI, so the only
   * failure it can raise is the TypeError of a nested `null`; a falsy `dpi`
   * option falls back to 300 instead of raising 'Invalid value for dpi'.
   */
  lemma MergeOnlyNullFails(fmt: NumberFormat, def: seq<Entry>, options: seq<Entry>)
    ensures Merged(fmt, def, options).Err? ==> Merged(fmt, def, options).error == NullDpiRead
  {
    EntriesOnlyNullFails(fmt, Layered(def, options), EffectiveDpi(Layered(def, options), Undefined));
  }

  lemma InitialKeysDistinct()
    ensures DistinctKeys(InitialOptions) && DistinctKeys(MosaicDefaults)
  {
  }

  /**
   * Precedence of the layers: a key the caller gives wins, then a key of the
   * per-call defaults, then `initialOptions`.
   */
  lemma LayeredLookup(def: seq<Entry>, options: seq<Entry>, k: string)
    requires DistinctKeys(def) && DistinctKeys(options)
    ensures Lookup(Layered(def, options), k) ==
      if HasKey(options, k) then Lookup(options, k)
      else if HasKey(def, k) then Lookup(def, k)
      else Lookup(InitialOptions, k)
  {
    InitialKeysDistinct();
    AssignLookup([], InitialOptions, k);
    AssignLookup(Assign([], InitialOptions), def, k);
    AssignLookup(Assign(Assign([], InitialOptions), def), options, k);
  }

  lemma LayeredKeys(def: seq<Entry>, options: seq<Entry>)
    ensures DistinctKeys(Layered(def, options))
    ensures forall k :: HasKey(Layered(def, options), k) <==> HasKey(InitialOptions, k) || HasKey(def, k) || HasKey(options, k)
  {
    assert DistinctKeys([]);
    AssignKeys([], InitialOptions);
    AssignKeys(Assign([], InitialOptions), def);
    AssignKeys(Assign(Assign([], InitialOptions), def), options);
  }

  /** Reading a key of a normalised object reads the normalised value of that key. */
  lemma {:induction false} NormalisedLookup(fmt: NumberFormat, es: seq<Entry>, dpi: Value, k: string)
    requires NormaliseEntries(fmt, es, dpi).Ok?
    ensures NormaliseValue(fmt, Lookup(es, k), dpi) == Ok(Lookup(NormaliseEntries(fmt, es, dpi).value, k))
    decreases es
  {
    if es != [] {
      var r := NormaliseEntries(fmt, es, dpi).value;
      assert r[0].key == es[0].key;
      if es[0].key != k {
        NormalisedLookup(fmt, es[1..], dpi, k);
        assert r[1..] == NormaliseEntries(fmt, es[1..], dpi).value;
      }
    }
  }

  /**
   * `mergeOptions` is last-writer-wins over the three layers, and then
   * converts the winning value at the merged record's own DPI.
   */
  lemma MergePrecedence(fmt: NumberFormat, def: seq<Entry>, options: seq<Entry>, k: string)
    requires DistinctKeys(def) && DistinctKeys(options)
    requires Merged(fmt, def, options).Ok?
    ensures var winner :=
        if HasKey(options, k) then Lookup(options, k)
        else if HasKey(def, k) then Lookup(def, k)
        else Lookup(InitialOptions, k);
      NormaliseValue(fmt, winner, EffectiveDpi(Layered(def, options), Undefined))
        == Ok(Lookup(Merged(fmt, def, options).value, k))
  {
    LayeredLookup(def, options, k);
    NormalisedLookup(fmt, Layered(def, options), EffectiveDpi(Layered(def, options), Undefined), k);
  }

  /** Without caller values, `quality` is 90 and neither flip is set. */
  lemma BaseDefaults(fmt: NumberFormat, options: seq<Entry>)
    requires DistinctKeys(options)
    requires !HasKey(options, "quality") && !HasKey(options, "flipV") && !HasKey(options, "flipH")
    requires Merged(fmt, [], options).Ok?
    ensures var r := Merged(fmt, [], options).value;
      && Lookup(r, "quality") == Number(Finite(90.0))
      && Lookup(r, "flipV") == Bool(false)
      && Lookup(r, "flipH") == Bool(false)
  {
    assert !HasKey([], "quality") && !HasKey([], "flipV") && !HasKey([], "flipH");
    MergePrecedence(fmt, [], options, "quality");
    MergePrecedence(fmt, [], options, "flipV");
    MergePrecedence(fmt, [], options, "flipH");
  }

  /** A per-call default the caller does not override survives the merge unchanged. */
  lemma DefaultSurvives(fmt: NumberFormat, def: seq<Entry>, config: seq<Entry>, k: string)
    requires DistinctKeys(def) && DistinctKeys(config)
    requires HasKey(def, k) && !HasKey(config, k) && Settled(fmt, Lookup(def, k))
    requires Merged(fmt, def, config).Ok?
    ensures Lookup(Merged(fmt, def, config).value, k) == Lookup(def, k)
  {
    MergePrecedence(fmt, def, config, k);
    SettledValueFixed(fmt, Lookup(def, k), EffectiveDpi(Layered(def, config), Undefined));
  }

  /** Without caller values, a mosaic has a black background, no margin, spacing or rotation, and 3 x 3 cells. */
  lemma MosaicDefaultValues(fmt: NumberFormat, config: seq<Entry>)
    requires fmt.parse("black") == NaN
    requires DistinctKeys(config)
    requires forall i :: 0 <= i < |MosaicDefaults| ==> !HasKey(config, MosaicDefaults[i].key)
    requires Merged(fmt, MosaicDefaults, config).Ok?
    ensures var r := Merged(fmt, MosaicDefaults, config).value;
      && Lookup(r, "background") == Str("black")
      && Lookup(r, "pageMargin") == Number(Finite(0.0))
      && Lookup(r, "boxSpacing") == Number(Finite(0.0))
      && Lookup(r, "pageRotation") == Number(Finite(0.0))
      && Lookup(r, "columns") == Number(Finite(3.0))
      && Lookup(r, "rows") == Number(Finite(3.0))
  {
    ColourPassesThrough(fmt, Undefined);
    MosaicDefaultAt(fmt, config, 0);
    MosaicDefaultAt(fmt, config, 1);
    MosaicDefaultAt(fmt, config, 2);
    MosaicDefaultAt(fmt, config, 3);
    MosaicDefaultAt(fmt, config, 4);
    MosaicDefaultAt(fmt, config, 5);
  }

  /** One default of `mosaic` the caller leaves alone. */
  lemma MosaicDefaultAt(fmt: NumberFormat, config: seq<Entry>, i: nat)
    requires i < |MosaicDefaults| && Settled(fmt, MosaicDefaults[i].val)
    requires DistinctKeys(config) && !HasKey(config, MosaicDefaults[i].key)
    requires Merged(fmt, MosaicDefaults, config).Ok?
    ensures Lookup(Merged(fmt, MosaicDefaults, config).value, MosaicDefaults[i].key) == MosaicDefaults[i].val
  {
    InitialKeysDistinct();
    var d := MosaicDefaults;
    assert HasKey(d, d[i].key);
    DefaultSurvives(fmt, d, config, d[i].key);
  }

  lemma {:induction false} PutSettled(fmt: NumberFormat, es: seq<Entry>, k: string, v: Value)
    requires forall i :: 0 <= i < |es| ==> Settled(fmt, es[i].val)
    requires Settled(fmt, v)
    ensures forall i :: 0 <= i < |Put(es, k, v)| ==> Settled(fmt, Put(es, k, v)[i].val)
  {
    if es != [] && es[0].key != k {
      PutSettled(fmt, es[1..], k, v);
      var p := Put(es, k, v);
      assert p == [es[0]] + Put(es[1..], k, v);
      assert forall i :: 0 < i < |p| ==> p[i] == Put(es[1..], k, v)[i - 1];
    } else if es != [] {
      var p := Put(es, k, v);
      assert forall i :: 0 < i < |p| ==> p[i] == es[i];
    }
  }

  lemma {:induction false} AssignSettled(fmt: NumberFormat, target: seq<Entry>, source: seq<Entry>)
    requires forall i :: 0 <= i < |target| ==> Settled(fmt, target[i].val)
    requires forall i :: 0 <= i < |source| ==> Settled(fmt, source[i].val)
    ensures forall i :: 0 <= i < |Assign(target, source)| ==> Settled(fmt, Assign(target, source)[i].val)
    decreases |source|
  {
    if source != [] {
      PutSettled(fmt, target, source[0].key, source[0].val);
      assert forall i :: 0 <= i < |source[1..]| ==> source[1..][i] == source[i + 1];
      AssignSettled(fmt, Put(target, source[0].key, source[0].val), source[1..]);
    }
  }

  lemma SameKeys(a: seq<Entry>, b: seq<Entry>)
    requires Keys(a) == Keys(b)
    ensures DistinctKeys(a) <==> DistinctKeys(b)
    ensures forall k :: HasKey(a, k) <==> HasKey(b, k)
  {
    assert |a| == |b|;
    assert forall i :: 0 <= i < |a| ==> a[i].key == Keys(a)[i] == b[i].key;
    forall k | HasKey(a, k) ensures HasKey(b, k) {
      var i :| 0 <= i < |a| && a[i].key == k;
      assert b[i].key == k;
    }
    forall k | HasKey(b, k) ensures HasKey(a, k) {
      var i :| 0 <= i < |b| && b[i].key == k;
      assert a[i].key == k;
    }
  }

  /** A merged record has distinct keys, among them those of `initialOptions`, and only settled values. */
  lemma MergedWellFormed(fmt: NumberFormat, def: seq<Entry>, options: seq<Entry>)
    requires Merged(fmt, def, options).Ok?
    ensures var r := Merged(fmt, def, options).value;
      && DistinctKeys(r)
      && HasKey(r, "quality") && HasKey(r, "flipV") && HasKey(r, "flipH")
      && forall i :: 0 <= i < |r| ==> Settled(fmt, r[i].val)
  {
    var layered := Layered(def, options);
    var r := Merged(fmt, def, options).value;
    LayeredKeys(def, options);
    ObjectShape(fmt, layered, Undefined);
    SameKeys(r, layered);
    assert InitialOptions[0].key == "quality" && InitialOptions[1].key == "flipV" && InitialOptions[2].key == "flipH";
    assert HasKey(InitialOptions, "quality") && HasKey(InitialOptions, "flipV") && HasKey(InitialOptions, "flipH");
    NormalisedEntriesSettled(fmt, layered, EffectiveDpi(layered, Undefined));
  }

  /**
   * Merging an already merged record again with no per-call defaults, as
   * `mosaic` does when it hands its options to `dcm2pnm`, succeeds and
   * reads back every key unchanged.
   */
  lemma RemergeKeepsOptions(fmt: NumberFormat, def: seq<Entry>, options: seq<Entry>)
    requires Merged(fmt, def, options).Ok?
    ensures var opts := Merged(fmt, def, options).value;
      && Merged(fmt, [], opts).Ok?
      && forall k :: Lookup(Merged(fmt, [], opts).value, k) == Lookup(opts, k)
  {
    var opts := Merged(fmt, def, options).value;
    MergedWellFormed(fmt, def, options);
    var layered := Layered([], opts);
    assert forall i :: 0 <= i < |InitialOptions| ==> Settled(fmt, InitialOptions[i].val);
    var none: seq<Entry> := [];
    AssignSettled(fmt, none, InitialOptions);
    AssignSettled(fmt, Assign(none, InitialOptions), none);
    AssignSettled(fmt, Assign(Assign(none, InitialOptions), none), opts);
    SettledEntriesFixed(fmt, layered, EffectiveDpi(layered, Undefined));
    forall k ensures Lookup(layered, k) == Lookup(opts, k) {
      assert DistinctKeys([]);
      LayeredLookup([], opts, k);
      if !HasKey(opts, k) {
        assert k != "quality" && k != "flipV" && k != "flipH";
        assert !HasKey(InitialOptions, k);
      }
    }
  }
}
