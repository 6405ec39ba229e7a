/**
 * `mosaic` of src/index.ts: merge the options over the mosaic defaults,
 * check the layout, rewrite the empty slots of the caller's array to
 * `null` in place, convert every other slot with `dcm2pnm`, collect one
 * token per slot, and run `montage` and then `convert` on the tokens.
 */
module Mosaic {
  import opened Js
  import opened Outcomes
  import opened Units
  import opened Options
  import opened Commands

  /**
   * What the environment supplies for one slot: the temp path its image is
   * written to, the scratch path a dataset is serialised to, and what the
   * converter reports.
   */
  datatype SlotIO = SlotIO(jpgFile: string, scratch: string, exec: ExecResult)

  /** The token of an empty or failed slot. */
  const Empty := "null:"

  // ---------------------------------------------------------------------
  // Slots

  function Nulled(src: Source): Source {
    if TruthySource(src) then src else NullSource
  }

  /** The caller's array after the `while` loop. */
  function NullFalsy(s: seq<Source>): (r: seq<Source>)
    ensures |r| == |s|
    ensures forall i :: 0 <= i < |s| ==> r[i] == (if TruthySource(s[i]) then s[i] else NullSource)
  {
    if s == [] then [] else NullFalsy(s[..|s| - 1]) + [Nulled(s[|s| - 1])]
  }

  /** The indices of the first `n` slots that are converted, in slot order. */
  function TruthyIndices(s: seq<Source>, n: nat): (r: seq<nat>)
    requires n <= |s|
    ensures forall k :: 0 <= k < |r| ==> r[k] < n && TruthySource(s[r[k]])
  {
    if n == 0 then [] else TruthyIndices(s, n - 1) + (if TruthySource(s[n - 1]) then [n - 1] else [])
  }

  predicate InRange(order: seq<nat>, n: nat) {
    forall k :: 0 <= k < |order| ==> order[k] < n
  }

  /** A completion order: the converted slots, each once, in the order their conversions settle. */
  predicate CompletionOrder(order: seq<nat>, s: seq<Source>) {
    InRange(order, |s|) && multiset(order) == multiset(TruthyIndices(s, |s|))
  }

  // ---------------------------------------------------------------------
  // Layout and geometry

  /** `options.rows * options.columns < dcmArray.length`. */
  predicate TooSmall(fmt: NumberFormat, opts: seq<Entry>, n: nat) {
    Less(Mul(ToNumber(fmt, Lookup(opts, "rows")), ToNumber(fmt, Lookup(opts, "columns"))), Finite(n as real))
  }

  /** The merge succeeds and the layout has room for every slot: the only case that converts anything. */
  predicate Accepted(fmt: NumberFormat, config: seq<Entry>, n: nat) {
    Merged(fmt, MosaicDefaults, config).Ok? && !TooSmall(fmt, Merged(fmt, MosaicDefaults, config).value, n)
  }

  datatype Geometry = Geometry(padding: Num, cellWidth: Option<Num>, cellHeight: Option<Num>)

  /** `film ? (film - margin * 2 + padding * 2) / count : null`. */
  function CellSize(fmt: NumberFormat, film: Value, margin: Value, padding: Num, count: Value): Option<Num> {
    if Truthy(film) then
      Some(Div(Add(Sub(ToNumber(fmt, film), Mul(ToNumber(fmt, margin), Finite(2.0))), Mul(padding, Finite(2.0))),
               ToNumber(fmt, count)))
    else None
  }

  function Layout(fmt: NumberFormat, opts: seq<Entry>): Geometry {
    var padding := Div(ToNumber(fmt, Lookup(opts, "boxSpacing")), Finite(2.0));
    Geometry(padding,
             CellSize(fmt, Lookup(opts, "filmWidth"), Lookup(opts, "pageMargin"), padding, Lookup(opts, "columns")),
             CellSize(fmt, Lookup(opts, "filmHeight"), Lookup(opts, "pageMargin"), padding, Lookup(opts, "rows")))
  }

  /** `cellWidth && ...`: a cell size contributes to `-geometry` only when it is a truthy number. */
  predicate CellShown(c: Option<Num>) { c.Some? && TruthyNum(c.value) }

  /** The size a shown cell contributes: the cell less the padding on both sides. */
  function Inner(c: Num, padding: Num): Num { Sub(c, Mul(padding, Finite(2.0))) }

  // ---------------------------------------------------------------------
  // Conversions and tokens

  /** A conversion still to settle: the run of `dcm2pnm` for a slot, None for an empty slot. */
  type Pending = Option<Run<()>>

  function SlotRun(fmt: NumberFormat, format: string, src: Source, opts: seq<Entry>, io: SlotIO): Run<()> {
    Dcm2pnm(fmt, format, src, io.jpgFile, opts, io.scratch, io.exec)
  }

  /** What `dcmArray.map` returns for the first `n` slots. */
  function Conversions(fmt: NumberFormat, format: string, s: seq<Source>, opts: seq<Entry>, io: seq<SlotIO>, n: nat): (r: seq<Pending>)
    requires n <= |s| == |io|
    ensures |r| == n
    ensures forall j :: 0 <= j < n ==> r[j] == if TruthySource(s[j]) then Some(SlotRun(fmt, format, s[j], opts, io[j])) else None
  {
    if n == 0 then []
    else Conversions(fmt, format, s, opts, io, n - 1)
         + [if TruthySource(s[n - 1]) then Some(SlotRun(fmt, format, s[n - 1], opts, io[n - 1])) else None]
  }

  /** The indices of the conversions, in slot order. */
  function Awaited(pending: seq<Pending>): (r: seq<nat>)
    ensures InRange(r, |pending|)
  {
    if pending == [] then []
    else Awaited(pending[..|pending| - 1]) + (if pending[|pending| - 1].Some? then [|pending| - 1] else [])
  }

  /** The token a slot ends up contributing. */
  function SlotToken(p: Pending, jpgFile: string): string {
    if p.Some? && p.value.outcome.Resolved? then Quote(jpgFile) else Empty
  }

  /** The tokens the empty slots push synchronously, in slot order. */
  function EmptyTokens(pending: seq<Pending>): (r: seq<string>)
    ensures forall k :: 0 <= k < |r| ==> r[k] == Empty
  {
    if pending == [] then []
    else EmptyTokens(pending[..|pending| - 1]) + (if pending[|pending| - 1].Some? then [] else [Empty])
  }

  /** The tokens the conversions push as they settle, in the order given. */
  function CompletedTokens(pending: seq<Pending>, io: seq<SlotIO>, order: seq<nat>): (r: seq<string>)
    ensures |r| == |order|
  {
    if order == [] then []
    else CompletedTokens(pending, io, order[..|order| - 1]) + [TokenAt(pending, io, order[|order| - 1])]
  }

  /** The token of slot `j`; an index past the slots (which no completion order holds) reads as empty. */
  function TokenAt(pending: seq<Pending>, io: seq<SlotIO>, j: nat): string {
    if j < |pending| && j < |io| then SlotToken(pending[j], io[j].jpgFile) else Empty
  }

  /** `JPGFiles` once every conversion has settled. */
  function Tokens(pending: seq<Pending>, io: seq<SlotIO>, order: seq<nat>): seq<string>
  {
    EmptyTokens(pending) + CompletedTokens(pending, io, order)
  }

  /** The reference: the token of each slot, in slot order. */
  function SlotOrderTokens(pending: seq<Pending>, io: seq<SlotIO>): (r: seq<string>)
    requires |pending| <= |io|
    ensures |r| == |pending|
  {
    if pending == [] then []
    else SlotOrderTokens(pending[..|pending| - 1], io) + [SlotToken(pending[|pending| - 1], io[|pending| - 1].jpgFile)]
  }

  // ---------------------------------------------------------------------
  // Calls

  /** The calls a conversion makes before it settles: everything but its closing sweep. */
  function Started(run: Run<()>): seq<Call> {
    if run.calls == [] then [] else run.calls[..|run.calls| - 1]
  }

  /** The calls the `map` starts synchronously, in slot order. */
  function StartCalls(pending: seq<Pending>): seq<Call> {
    if pending == [] then []
    else
      var last := pending[|pending| - 1];
      StartCalls(pending[..|pending| - 1]) + (if last.Some? then Started(last.value) else [])
  }

  function Sweeps(k: nat): (r: seq<Call>)
    ensures |r| == k && forall i :: 0 <= i < k ==> r[i] == Sweep
  {
    if k == 0 then [] else Sweeps(k - 1) + [Sweep]
  }

  // ---------------------------------------------------------------------
  // Arguments

  function FilesPiece(tokens: seq<string>): string { " " + Join(tokens, " ") + " " }

  function TilePiece(fmt: NumberFormat, columns: Value, rows: Value): string {
    " -tile " + ToText(fmt, Or(columns, Str(""))) + "x" + ToText(fmt, Or(rows, Str(""))) + " "
  }

  function WidthPiece(fmt: NumberFormat, n: Num): string { " " + ShowNum(fmt, n) }

  function OffsetPiece(fmt: NumberFormat, padding: Num): string {
    "+" + ShowNum(fmt, padding) + "+" + ShowNum(fmt, padding) + " "
  }

  function BackgroundPiece(fmt: NumberFormat, background: Value): string {
    " -background " + ToText(fmt, background) + " -gravity Center "
  }

  function OutputPiece(destFile: string): string { " " + Quote(destFile) }

  /** `pmArr`: the pieces of the `montage` argument string, in push order. */
  function MontagePieces(fmt: NumberFormat, opts: seq<Entry>, g: Geometry, tokens: seq<string>, destFile: string): seq<string> {
    MontageHead(fmt, opts, tokens) + MontageGeometry(fmt, g) + MontageTail(fmt, opts, destFile)
  }

  /** The input tokens and the optional `-tile`. */
  function MontageHead(fmt: NumberFormat, opts: seq<Entry>, tokens: seq<string>): seq<string> {
    var columns := Lookup(opts, "columns");
    [FilesPiece(tokens)]
    + (if Truthy(columns) then [TilePiece(fmt, columns, Lookup(opts, "rows"))] else [])
  }

  /** `-geometry <width>x<height>+<padding>+<padding>`, either size left out when not shown. */
  function MontageGeometry(fmt: NumberFormat, g: Geometry): seq<string> {
    [" -geometry "]
    + (if CellShown(g.cellWidth) then [WidthPiece(fmt, Inner(g.cellWidth.value, g.padding))] else [])
    + ["x"]
    + (if CellShown(g.cellHeight) then [ShowNum(fmt, Inner(g.cellHeight.value, g.padding))] else [])
    + [OffsetPiece(fmt, g.padding)]
  }

  /** The background, the optional `-trim` and the output file. */
  function MontageTail(fmt: NumberFormat, opts: seq<Entry>, destFile: string): seq<string> {
    [BackgroundPiece(fmt, Lookup(opts, "background"))]
    + (if Truthy(Lookup(opts, "trim")) then [" -trim "] else [])
    + [OutputPiece(destFile)]
  }

  function MontageArgs(fmt: NumberFormat, opts: seq<Entry>, g: Geometry, tokens: seq<string>, destFile: string): string {
    Concat(MontagePieces(fmt, opts, g, tokens, destFile))
  }

  function BorderPiece(fmt: NumberFormat, background: Value, margin: Value): string {
    " -bordercolor " + Quote(ToText(fmt, background)) + " -border " + ToText(fmt, margin) + " +repage "
  }

  function RotatePiece(fmt: NumberFormat, rotation: Value): string { " -rotate " + Quote(ToText(fmt, rotation)) + " " }

  function ShavePiece(fmt: NumberFormat, padding: Num): string {
    " -shave " + ShowNum(fmt, padding) + "x" + ShowNum(fmt, padding) + " +repage "
  }

  /** The terms of the `convert` argument string, in order. */
  function ConvertPieces(fmt: NumberFormat, opts: seq<Entry>, g: Geometry, destFile: string): seq<string> {
    var margin := Lookup(opts, "pageMargin");
    var rotation := Lookup(opts, "pageRotation");
    [Quote(destFile) + " ", ShavePiece(fmt, g.padding)]
    + (if Truthy(margin) then [BorderPiece(fmt, Lookup(opts, "background"), margin)] else [])
    + (if Truthy(rotation) then [RotatePiece(fmt, rotation)] else [])
    + [OutputPiece(destFile)]
  }

  function ConvertArgs(fmt: NumberFormat, opts: seq<Entry>, g: Geometry, destFile: string): string {
    Concat(ConvertPieces(fmt, opts, g, destFile))
  }

  // ---------------------------------------------------------------------
  // The whole call

  /**
   * `mosaic(format, dcmArray, destFile, config)` on the array's contents
   * `s0`: `io` is what each slot's conversion meets, `order` the order the
   * conversions settle, and `montage`/`convert` what the two tools report.
   */
  function MosaicRun(fmt: NumberFormat, format: string, s0: seq<Source>, destFile: string, config: seq<Entry>,
                     io: seq<SlotIO>, order: seq<nat>, montage: ExecResult, convert: ExecResult): (run: Run<string>)
    requires |io| == |s0|
  {
    match Merged(fmt, MosaicDefaults, config)
    case Err(e) => Run(Thrown(e), [])
    case Ok(opts) =>
      if TooSmall(fmt, opts, |s0|) then Run(Rejected(LayoutTooSmall), [])
      else Finish(fmt, opts, Conversions(fmt, format, NullFalsy(s0), opts, io, |s0|), io, order, destFile, montage, convert)
  }

  /**
   * How `mosaic` ends: it throws iff the merge fails, a layout too small
   * rejects before any call, and it resolves with `destFile` iff the layout
   * fits and both `montage` and `convert` succeed.
   */
  lemma MosaicRunOutcome(fmt: NumberFormat, format: string, s0: seq<Source>, destFile: string, config: seq<Entry>,
                         io: seq<SlotIO>, order: seq<nat>, montage: ExecResult, convert: ExecResult)
    requires |io| == |s0|
    ensures var run := MosaicRun(fmt, format, s0, destFile, config, io, order, montage, convert);
      && (run.outcome.Thrown? <==> Merged(fmt, MosaicDefaults, config).Err?)
      && (!Accepted(fmt, config, |s0|) ==> run.calls == [])
      && (run.outcome == Rejected(LayoutTooSmall) <==>
            Merged(fmt, MosaicDefaults, config).Ok? && TooSmall(fmt, Merged(fmt, MosaicDefaults, config).value, |s0|))
      && (run.outcome.Resolved? <==> Accepted(fmt, config, |s0|) && montage.Succeeded? && convert.Succeeded?)
      && (run.outcome.Resolved? ==> run.outcome.value == destFile)
  {
  }

  /** What follows the `map`: collect the tokens as the conversions settle, then run `montage` and `convert`. */
  function Finish(fmt: NumberFormat, opts: seq<Entry>, pending: seq<Pending>, io: seq<SlotIO>, order: seq<nat>,
                  destFile: string, montage: ExecResult, convert: ExecResult): (run: Run<string>)
    ensures !run.outcome.Thrown? && run.outcome != Rejected(LayoutTooSmall)
    ensures run.outcome.Resolved? <==> montage.Succeeded? && convert.Succeeded?
    ensures run.outcome.Resolved? ==> run.outcome.value == destFile
  {
    var g := Layout(fmt, opts);
    var settled := StartCalls(pending) + Sweeps(|order|);
    var montageCall := Imagick("montage", MontageArgs(fmt, opts, g, Tokens(pending, io, order), destFile));
    match montage
    case Failed(m) => Run(Rejected(ToolFailed(m)), settled + [montageCall])
    case Succeeded =>
      Run(ExecOutcome(convert, destFile), settled + [montageCall, Imagick("convert", ConvertArgs(fmt, opts, g, destFile))])
  }

  method Mosaic(fmt: NumberFormat, format: string, dcmArray: array<Source>, destFile: string, config: seq<Entry>,
                io: seq<SlotIO>, order: seq<nat>, montage: ExecResult, convert: ExecResult) returns (run: Run<string>)
    requires |io| == dcmArray.Length
    requires CompletionOrder(order, dcmArray[..])
    modifies dcmArray
    ensures run == MosaicRun(fmt, format, old(dcmArray[..]), destFile, config, io, order, montage, convert)
    ensures dcmArray[..] == if Accepted(fmt, config, dcmArray.Length) then NullFalsy(old(dcmArray[..])) else old(dcmArray[..])
  {
    var merged := MergeOptions(fmt, MosaicDefaults, config);
    if merged.Err? {
      return Run(Thrown(merged.error), []);
    }
    var options := merged.value;
    if TooSmall(fmt, options, dcmArray.Length) {
      return Run(Rejected(LayoutTooSmall), []);
    }
    NullEmptySlots(dcmArray);
    var pending, jpgFiles, calls := StartConversions(fmt, format, dcmArray, options, io);
    jpgFiles, calls := AwaitConversions(pending, io, order, jpgFiles, calls);
    run := Compose(fmt, options, jpgFiles, calls, destFile, montage, convert);
  }

  /** The `while` loop: every falsy entry of the caller's array becomes `null`. */
  method NullEmptySlots(dcmArray: array<Source>)
    modifies dcmArray
    ensures dcmArray[..] == NullFalsy(old(dcmArray[..]))
  {
    ghost var s0 := dcmArray[..];
    var i := 0;
    while i < dcmArray.Length
      invariant 0 <= i <= dcmArray.Length
      invariant dcmArray[..i] == NullFalsy(s0[..i])
      invariant dcmArray[i..] == s0[i..]
    {
      assert s0[..i + 1][..i] == s0[..i];
      assert dcmArray[i..][0] == s0[i];
      if !TruthySource(dcmArray[i]) {
        dcmArray[i] := NullSource;
      }
      assert dcmArray[..i + 1] == dcmArray[..i] + [dcmArray[i]];
      assert dcmArray[i + 1..] == s0[i + 1..] by {
        assert s0[i..][1..] == s0[i + 1..];
      }
      i := i + 1;
    }
    assert dcmArray[..] == dcmArray[..dcmArray.Length] && s0 == s0[..|s0|];
  }

  /** One slot more: its token and its started calls follow those of the earlier slots. */
  lemma PendingStep(pending: seq<Pending>, p: Pending)
    ensures EmptyTokens(pending + [p]) == EmptyTokens(pending) + (if p.Some? then [] else [Empty])
    ensures StartCalls(pending + [p]) == StartCalls(pending) + (if p.Some? then Started(p.value) else [])
  {
    assert (pending + [p])[..|pending|] == pending;
  }

  /** `dcmArray.map`: an empty slot pushes its token at once, any other starts its conversion. */
  method StartConversions(fmt: NumberFormat, format: string, dcmArray: array<Source>, options: seq<Entry>, io: seq<SlotIO>)
    returns (pending: seq<Pending>, jpgFiles: seq<string>, calls: seq<Call>)
    requires |io| == dcmArray.Length
    ensures pending == Conversions(fmt, format, dcmArray[..], options, io, dcmArray.Length)
    ensures jpgFiles == EmptyTokens(pending)
    ensures calls == StartCalls(pending)
  {
    pending, jpgFiles, calls := [], [], [];
    var j := 0;
    while j < dcmArray.Length
      invariant 0 <= j <= dcmArray.Length
      invariant pending == Conversions(fmt, format, dcmArray[..], options, io, j)
      invariant jpgFiles == EmptyTokens(pending)
      invariant calls == StartCalls(pending)
    {
      var dcm := dcmArray[j];
      assert dcm == dcmArray[..][j];
      if !TruthySource(dcm) {
        PendingStep(pending, None);
        jpgFiles := jpgFiles + [Empty];
        pending := pending + [None];
      } else {
        var conversion := Dcm2pnm(fmt, format, dcm, io[j].jpgFile, options, io[j].scratch, io[j].exec);
        PendingStep(pending, Some(conversion));
        calls := calls + Started(conversion);
        pending := pending + [Some(conversion)];
      }
      j := j + 1;
    }
  }

  /** The conversions settle in `order`; each pushes its token after its sweep. */
  method AwaitConversions(pending: seq<Pending>, io: seq<SlotIO>, order: seq<nat>, jpgFiles0: seq<string>, calls0: seq<Call>)
    returns (jpgFiles: seq<string>, calls: seq<Call>)
    requires |pending| == |io| && InRange(order, |pending|)
    ensures jpgFiles == jpgFiles0 + CompletedTokens(pending, io, order)
    ensures calls == calls0 + Sweeps(|order|)
  {
    jpgFiles, calls := jpgFiles0, calls0;
    var k := 0;
    while k < |order|
      invariant 0 <= k <= |order|
      invariant jpgFiles == jpgFiles0 + CompletedTokens(pending, io, order[..k])
      invariant calls == calls0 + Sweeps(k)
    {
      var slot := order[k];
      calls := calls + [Sweep];
      if pending[slot].Some? && pending[slot].value.outcome.Resolved? {
        jpgFiles := jpgFiles + [Quote(io[slot].jpgFile)];
      } else {
        jpgFiles := jpgFiles + [Empty];
      }
      assert order[..k + 1][..k] == order[..k];
      k := k + 1;
    }
    assert order[..|order|] == order;
  }

  /** The `finally` callback: assemble `pmArr`, run `montage`, and on its success `convert`. */
  method Compose(fmt: NumberFormat, options: seq<Entry>, jpgFiles: seq<string>, calls0: seq<Call>, destFile: string,
                 montage: ExecResult, convert: ExecResult) returns (run: Run<string>)
    ensures var g := Layout(fmt, options);
      var montageCall := Imagick("montage", MontageArgs(fmt, options, g, jpgFiles, destFile));
      run == match montage
        case Failed(m) => Run(Rejected(ToolFailed(m)), calls0 + [montageCall])
        case Succeeded =>
          Run(ExecOutcome(convert, destFile), calls0 + [montageCall, Imagick("convert", ConvertArgs(fmt, options, g, destFile))])
  {
    var boxPadding := Div(ToNumber(fmt, Lookup(options, "boxSpacing")), Finite(2.0));
    var cellWidth := CellSize(fmt, Lookup(options, "filmWidth"), Lookup(options, "pageMargin"), boxPadding, Lookup(options, "columns"));
    var cellHeight := CellSize(fmt, Lookup(options, "filmHeight"), Lookup(options, "pageMargin"), boxPadding, Lookup(options, "rows"));
    var g := Geometry(boxPadding, cellWidth, cellHeight);
    var pmArr := MontagePieceList(fmt, options, g, jpgFiles, destFile);
    var calls := calls0 + [Imagick("montage", Concat(pmArr))];
    if montage.Failed? {
      return Run(Rejected(ToolFailed(montage.message)), calls);
    }
    calls := calls + [Imagick("convert", ConvertArgs(fmt, options, g, destFile))];
    run := Run(ExecOutcome(convert, destFile), calls);
  }

  /** `pmArr`, grown push by push. */
  method MontagePieceList(fmt: NumberFormat, options: seq<Entry>, g: Geometry, jpgFiles: seq<string>, destFile: string)
    returns (pmArr: seq<string>)
    ensures pmArr == MontagePieces(fmt, options, g, jpgFiles, destFile)
  {
    pmArr := [FilesPiece(jpgFiles)];
    var columns := Lookup(options, "columns");
    if Truthy(columns) {
      pmArr := pmArr + [TilePiece(fmt, columns, Lookup(options, "rows"))];
    }
    assert pmArr == MontageHead(fmt, options, jpgFiles);
    ghost var head := pmArr;
    ghost var width := if CellShown(g.cellWidth) then [WidthPiece(fmt, Inner(g.cellWidth.value, g.padding))] else [];
    ghost var height := if CellShown(g.cellHeight) then [ShowNum(fmt, Inner(g.cellHeight.value, g.padding))] else [];
    pmArr := pmArr + [" -geometry "];
    if CellShown(g.cellWidth) {
      pmArr := pmArr + [WidthPiece(fmt, Inner(g.cellWidth.value, g.padding))];
    }
    assert pmArr == head + [" -geometry "] + width;
    pmArr := pmArr + ["x"];
    if CellShown(g.cellHeight) {
      pmArr := pmArr + [ShowNum(fmt, Inner(g.cellHeight.value, g.padding))];
    }
    assert pmArr == head + [" -geometry "] + width + ["x"] + height;
    pmArr := pmArr + [OffsetPiece(fmt, g.padding)];
    assert MontageGeometry(fmt, g) == [" -geometry "] + width + ["x"] + height + [OffsetPiece(fmt, g.padding)];
    AppendFive(head, [" -geometry "], width, ["x"], height, [OffsetPiece(fmt, g.padding)]);
    ghost var geometry := pmArr;
    pmArr := pmArr + [BackgroundPiece(fmt, Lookup(options, "background"))];
    if Truthy(Lookup(options, "trim")) {
      pmArr := pmArr + [" -trim "];
    }
    pmArr := pmArr + [OutputPiece(destFile)];
    assert pmArr == geometry + MontageTail(fmt, options, destFile);
  }

  lemma AppendFive(h: seq<string>, a: seq<string>, b: seq<string>, c: seq<string>, d: seq<string>, e: seq<string>)
    ensures h + a + b + c + d + e == h + (a + b + c + d + e)
  {
  }

  // ---------------------------------------------------------------------
  // Properties

  /** The empty slots of the array become `null`; its length and its other slots are kept. */
  lemma NullingKeepsSlots(s: seq<Source>)
    ensures |NullFalsy(s)| == |s|
    ensures forall i :: 0 <= i < |s| && TruthySource(s[i]) ==> NullFalsy(s)[i] == s[i]
    ensures forall i :: 0 <= i < |s| && !TruthySource(s[i]) ==> NullFalsy(s)[i] == NullSource
    ensures NullFalsy(NullFalsy(s)) == NullFalsy(s)
  {
  }

  lemma {:induction false} AwaitedConversions(fmt: NumberFormat, format: string, s: seq<Source>, opts: seq<Entry>,
                                              io: seq<SlotIO>, n: nat)
    requires n <= |s| == |io|
    ensures Awaited(Conversions(fmt, format, s, opts, io, n)) == TruthyIndices(s, n)
  {
    if n > 0 {
      AwaitedConversions(fmt, format, s, opts, io, n - 1);
      var p := Conversions(fmt, format, s, opts, io, n);
      assert p[..|p| - 1] == Conversions(fmt, format, s, opts, io, n - 1);
    }
  }

  /** Every converted slot below `n` is listed, and the list is strictly increasing, so no slot is listed twice. */
  lemma {:induction false} TruthyIndicesExact(s: seq<Source>, n: nat)
    requires n <= |s|
    ensures forall j :: 0 <= j < n && TruthySource(s[j]) ==> j in TruthyIndices(s, n)
    ensures forall a, b :: 0 <= a < b < |TruthyIndices(s, n)| ==> TruthyIndices(s, n)[a] < TruthyIndices(s, n)[b]
  {
    if n > 0 {
      TruthyIndicesExact(s, n - 1);
      var front := TruthyIndices(s, n - 1);
      var r := TruthyIndices(s, n);
      assert r == front + (if TruthySource(s[n - 1]) then [n - 1] else []);
      assert forall k :: 0 <= k < |front| ==> r[k] == front[k];
    }
  }

  lemma {:induction false} TruthyIndicesNulled(s: seq<Source>, n: nat)
    requires n <= |s|
    ensures TruthyIndices(NullFalsy(s), n) == TruthyIndices(s, n)
  {
    if n > 0 {
      TruthyIndicesNulled(s, n - 1);
    }
  }

  lemma {:induction false} CompletedTokensAppend(pending: seq<Pending>, io: seq<SlotIO>, a: seq<nat>, b: seq<nat>)
    ensures CompletedTokens(pending, io, a + b) == CompletedTokens(pending, io, a) + CompletedTokens(pending, io, b)
  {
    if b != [] {
      var b' := b[..|b| - 1];
      assert (a + b)[..|a + b| - 1] == a + b';
      CompletedTokensAppend(pending, io, a, b');
    } else {
      assert a + b == a;
    }
  }

  /** The multiset of collected tokens depends only on the multiset of the completion order. */
  lemma {:induction false} CompletedTokensPermutation(pending: seq<Pending>, io: seq<SlotIO>, xs: seq<nat>, ys: seq<nat>)
    requires multiset(xs) == multiset(ys)
    ensures multiset(CompletedTokens(pending, io, xs)) == multiset(CompletedTokens(pending, io, ys))
    decreases |xs|
  {
    if xs != [] {
      var x := xs[|xs| - 1];
      var xs' := xs[..|xs| - 1];
      assert xs == xs' + [x];
      assert x in multiset(ys);
      var k :| 0 <= k < |ys| && ys[k] == x;
      var front, back := ys[..k], ys[k + 1..];
      assert ys == front + [x] + back;
      RemoveOne(xs', x, front, back);
      CompletedTokensPermutation(pending, io, xs', front + back);
      CompletedTokensAppend(pending, io, front, back);
      CompletedTokensAppend(pending, io, front, [x]);
      CompletedTokensAppend(pending, io, front + [x], back);
      CompletedTokensAppend(pending, io, xs', [x]);
      ReinsertOne(CompletedTokens(pending, io, xs'), CompletedTokens(pending, io, [x]),
                  CompletedTokens(pending, io, front), CompletedTokens(pending, io, back));
    } else {
      assert ys == [];
    }
  }

  /** Taking the same element out of two equal multisets leaves them equal. */
  lemma RemoveOne(xs: seq<nat>, x: nat, front: seq<nat>, back: seq<nat>)
    requires multiset(xs + [x]) == multiset(front + [x] + back)
    ensures multiset(xs) == multiset(front + back)
  {
    assert multiset(front + [x] + back) == multiset(front + back) + multiset{x};
    assert multiset(xs + [x]) == multiset(xs) + multiset{x};
    assert multiset(xs) == (multiset(xs) + multiset{x}) - multiset{x};
    assert multiset(front + back) == (multiset(front + back) + multiset{x}) - multiset{x};
  }

  /** Putting the same run back into two equal multisets keeps them equal. */
  lemma ReinsertOne(xs: seq<string>, t: seq<string>, front: seq<string>, back: seq<string>)
    requires multiset(xs) == multiset(front + back)
    ensures multiset(xs + t) == multiset(front + t + back)
  {
  }

  /** Collecting tokens of slots below `|p|` reads only that prefix of the conversions. */
  lemma {:induction false} CompletedTokensPrefix(p: seq<Pending>, q: seq<Pending>, io: seq<SlotIO>, order: seq<nat>)
    requires |p| <= |q| <= |io| && p == q[..|p|] && InRange(order, |p|)
    ensures CompletedTokens(p, io, order) == CompletedTokens(q, io, order)
  {
    if order != [] {
      var last := order[|order| - 1];
      assert p[last] == q[last];
      CompletedTokensPrefix(p, q, io, order[..|order| - 1]);
    }
  }

  /** The reference token list holds each slot's token at that slot's index. */
  lemma {:induction false} SlotOrderTokensAt(pending: seq<Pending>, io: seq<SlotIO>, i: nat)
    requires i < |pending| <= |io|
    ensures SlotOrderTokens(pending, io)[i] == SlotToken(pending[i], io[i].jpgFile)
  {
    if i < |pending| - 1 {
      SlotOrderTokensAt(pending[..|pending| - 1], io, i);
    }
  }

  lemma {:induction false} SlotOrderSplit(pending: seq<Pending>, io: seq<SlotIO>)
    requires |pending| <= |io|
    ensures multiset(EmptyTokens(pending)) + multiset(CompletedTokens(pending, io, Awaited(pending)))
         == multiset(SlotOrderTokens(pending, io))
  {
    if pending != [] {
      var n := |pending|;
      var p' := pending[..n - 1];
      SlotOrderSplit(p', io);
      var t := SlotToken(pending[n - 1], io[n - 1].jpgFile);
      CompletedTokensPrefix(p', pending, io, Awaited(p'));
      SplitStep(pending, io);
      var e, e' := EmptyTokens(pending), EmptyTokens(p');
      var r, r' := SlotOrderTokens(pending, io), SlotOrderTokens(p', io);
      var d, d' := CompletedTokens(pending, io, Awaited(pending)), CompletedTokens(pending, io, Awaited(p'));
      if pending[n - 1].Some? {
        MultisetStep(e', d', r', t, e, d, r);
      } else {
        MultisetStep(d', e', r', t, d, e, r);
      }
    }
  }

  /** One slot more, in each of the three token lists. */
  lemma SplitStep(pending: seq<Pending>, io: seq<SlotIO>)
    requires 0 < |pending| <= |io|
    ensures var n := |pending|; var p' := pending[..n - 1]; var t := SlotToken(pending[n - 1], io[n - 1].jpgFile);
      && SlotOrderTokens(pending, io) == SlotOrderTokens(p', io) + [t]
      && (pending[n - 1].Some? ==>
            && EmptyTokens(pending) == EmptyTokens(p')
            && CompletedTokens(pending, io, Awaited(pending)) == CompletedTokens(pending, io, Awaited(p')) + [t])
      && (pending[n - 1].None? ==>
            && CompletedTokens(pending, io, Awaited(pending)) == CompletedTokens(pending, io, Awaited(p'))
            && EmptyTokens(pending) == EmptyTokens(p') + [t])
  {
    var n := |pending|;
    var c := Awaited(pending[..n - 1]);
    if pending[n - 1].Some? {
      assert Awaited(pending) == c + [n - 1];
      assert (c + [n - 1])[..|c|] == c;
    } else {
      assert Awaited(pending) == c;
    }
  }

  /** One slot more: its token joins one of the two halves, and the reference. */
  lemma MultisetStep(a': seq<string>, b': seq<string>, r': seq<string>, t: string,
                     a: seq<string>, b: seq<string>, r: seq<string>)
    requires multiset(a') + multiset(b') == multiset(r') || multiset(b') + multiset(a') == multiset(r')
    requires a == a' && b == b' + [t] && r == r' + [t]
    ensures multiset(a) + multiset(b) == multiset(r) && multiset(b) + multiset(a) == multiset(r)
  {
  }

  /**
   * Every slot contributes exactly one token, whatever order the
   * conversions settle in: `null:` for an empty or failed slot and the
   * quoted temp path for a slot whose conversion succeeded.
   */
  lemma TokensPerSlot(fmt: NumberFormat, format: string, s0: seq<Source>, opts: seq<Entry>, io: seq<SlotIO>, order: seq<nat>)
    requires |s0| == |io| && CompletionOrder(order, s0)
    ensures var pending := Conversions(fmt, format, NullFalsy(s0), opts, io, |s0|);
      && |Tokens(pending, io, order)| == |s0|
      && multiset(Tokens(pending, io, order)) == multiset(SlotOrderTokens(pending, io))
      && forall i :: 0 <= i < |s0| ==>
           SlotOrderTokens(pending, io)[i]
           == if TruthySource(s0[i]) && SlotRun(fmt, format, s0[i], opts, io[i]).outcome.Resolved?
              then Quote(io[i].jpgFile) else Empty
  {
    var s := NullFalsy(s0);
    var pending := Conversions(fmt, format, s, opts, io, |s0|);
    AwaitedConversions(fmt, format, s, opts, io, |s0|);
    TruthyIndicesNulled(s0, |s0|);
    TokensReorder(pending, io, order);
    forall i | 0 <= i < |s0|
      ensures SlotOrderTokens(pending, io)[i]
           == if TruthySource(s0[i]) && SlotRun(fmt, format, s0[i], opts, io[i]).outcome.Resolved?
              then Quote(io[i].jpgFile) else Empty
    {
      SlotOrderTokensAt(pending, io, i);
    }
  }

  /** Whatever order the awaited conversions settle in, the tokens are those of the slots, one each. */
  lemma TokensReorder(pending: seq<Pending>, io: seq<SlotIO>, order: seq<nat>)
    requires |pending| <= |io| && multiset(order) == multiset(Awaited(pending))
    ensures |Tokens(pending, io, order)| == |pending|
    ensures multiset(Tokens(pending, io, order)) == multiset(SlotOrderTokens(pending, io))
  {
    SlotOrderSplit(pending, io);
    CompletedTokensPermutation(pending, io, order, Awaited(pending));
    assert |multiset(Tokens(pending, io, order))| == |Tokens(pending, io, order)|;
  }

  /** The conversions inside `mosaic` re-merge options that are already merged, so none of them throws. */
  lemma InnerConversionsSettle(fmt: NumberFormat, format: string, src: Source, config: seq<Entry>, io: SlotIO)
    requires Merged(fmt, MosaicDefaults, config).Ok?
    ensures !SlotRun(fmt, format, src, Merged(fmt, MosaicDefaults, config).value, io).outcome.Thrown?
  {
    RemergeKeepsOptions(fmt, MosaicDefaults, config);
  }

  /** A layout too small for the array rejects before any conversion or tool run. */
  lemma LayoutRejects(fmt: NumberFormat, format: string, s0: seq<Source>, destFile: string, config: seq<Entry>,
                      io: seq<SlotIO>, order: seq<nat>, montage: ExecResult, convert: ExecResult)
    requires |io| == |s0|
    requires Merged(fmt, MosaicDefaults, config).Ok?
    requires Less(Mul(ToNumber(fmt, Lookup(Merged(fmt, MosaicDefaults, config).value, "rows")),
                      ToNumber(fmt, Lookup(Merged(fmt, MosaicDefaults, config).value, "columns"))),
                  Finite(|s0| as real))
    ensures MosaicRun(fmt, format, s0, destFile, config, io, order, montage, convert) == Run(Rejected(LayoutTooSmall), [])
  {
  }

  lemma {:induction false} StartCallsNoImagick(pending: seq<Pending>)
    requires forall j :: 0 <= j < |pending| && pending[j].Some? ==> NoImagick(pending[j].value.calls)
    ensures NoImagick(StartCalls(pending))
  {
    if pending != [] {
      var p' := pending[..|pending| - 1];
      StartCallsNoImagick(p');
      var last := pending[|pending| - 1];
      if last.Some? {
        var r := last.value;
        assert NoImagick(Started(r)) by {
          if r.calls != [] {
            forall i | 0 <= i < |Started(r)|
              ensures !Started(r)[i].Imagick?
            {
              assert Started(r)[i] == r.calls[i];
            }
          }
        }
        var a: seq<Call>, b: seq<Call> := StartCalls(p'), Started(r);
        forall i | 0 <= i < |a + b|
          ensures !(a + b)[i].Imagick?
        {
          if i < |a| { assert (a + b)[i] == a[i]; } else { assert (a + b)[i] == b[i - |a|]; }
        }
      }
    }
  }

  lemma ConvertAfterMontageFinish(fmt: NumberFormat, opts: seq<Entry>, pending: seq<Pending>, io: seq<SlotIO>, order: seq<nat>,
                                  destFile: string, montage: ExecResult, convert: ExecResult, i: nat)
    requires |pending| == |io|
    requires forall j :: 0 <= j < |pending| && pending[j].Some? ==> NoImagick(pending[j].value.calls)
    requires var calls := Finish(fmt, opts, pending, io, order, destFile, montage, convert).calls;
      i < |calls| && calls[i].Imagick? && calls[i].program == "convert"
    ensures montage.Succeeded?
    ensures var calls := Finish(fmt, opts, pending, io, order, destFile, montage, convert).calls;
      i == |calls| - 1 && i > 0 && calls[i - 1].Imagick? && calls[i - 1].program == "montage"
  {
    var calls := Finish(fmt, opts, pending, io, order, destFile, montage, convert).calls;
    var g := Layout(fmt, opts);
    var start := StartCalls(pending);
    var settled := start + Sweeps(|order|);
    var montageCall := Imagick("montage", MontageArgs(fmt, opts, g, Tokens(pending, io, order), destFile));
    var tail := if montage.Failed? then [montageCall] else [montageCall, Imagick("convert", ConvertArgs(fmt, opts, g, destFile))];
    assert calls == settled + tail;
    StartCallsNoImagick(pending);
    assert NoImagick(settled) by {
      forall k | 0 <= k < |settled|
        ensures !settled[k].Imagick?
      {
        if k < |start| { assert settled[k] == start[k]; } else { assert settled[k] == Sweeps(|order|)[k - |start|]; }
      }
    }
    ImagickInTail(settled, tail, i);
  }

  /** An `ImageMagick` call after calls that hold none is one of the calls that follow. */
  lemma ImagickInTail(settled: seq<Call>, tail: seq<Call>, i: nat)
    requires NoImagick(settled) && i < |settled + tail| && (settled + tail)[i].Imagick?
    ensures |settled| <= i && (settled + tail)[i] == tail[i - |settled|]
  {
  }

  /** No conversion of a slot runs an `ImageMagick` tool. */
  lemma ConversionsNoImagick(fmt: NumberFormat, format: string, s: seq<Source>, opts: seq<Entry>, io: seq<SlotIO>, n: nat)
    requires n <= |s| == |io|
    ensures var pending := Conversions(fmt, format, s, opts, io, n);
      forall j :: 0 <= j < |pending| && pending[j].Some? ==> NoImagick(pending[j].value.calls)
  {
  }

  /** `convert` runs only after `montage` has succeeded, as the very next and last call. */
  lemma ConvertAfterMontage(fmt: NumberFormat, format: string, s0: seq<Source>, destFile: string, config: seq<Entry>,
                            io: seq<SlotIO>, order: seq<nat>, montage: ExecResult, convert: ExecResult, i: nat)
    requires |io| == |s0|
    requires var calls := MosaicRun(fmt, format, s0, destFile, config, io, order, montage, convert).calls;
      i < |calls| && calls[i].Imagick? && calls[i].program == "convert"
    ensures montage.Succeeded?
    ensures var calls := MosaicRun(fmt, format, s0, destFile, config, io, order, montage, convert).calls;
      i == |calls| - 1 && i > 0 && calls[i - 1].Imagick? && calls[i - 1].program == "montage"
  {
    var opts := Merged(fmt, MosaicDefaults, config).value;
    var pending := Conversions(fmt, format, NullFalsy(s0), opts, io, |s0|);
    MosaicRunOutcome(fmt, format, s0, destFile, config, io, order, montage, convert);
    assert Accepted(fmt, config, |s0|);
    assert MosaicRun(fmt, format, s0, destFile, config, io, order, montage, convert).calls
        == Finish(fmt, opts, pending, io, order, destFile, montage, convert).calls;
    ConversionsNoImagick(fmt, format, NullFalsy(s0), opts, io, |s0|);
    ConvertAfterMontageFinish(fmt, opts, pending, io, order, destFile, montage, convert, i);
  }

  // ---------------------------------------------------------------------
  // Geometry

  /** The padding is half the box spacing. */
  lemma PaddingIsHalfSpacing(fmt: NumberFormat, opts: seq<Entry>, spacing: real)
    requires Lookup(opts, "boxSpacing") == Number(Finite(spacing))
    ensures Layout(fmt, opts).padding == Finite(spacing / 2.0)
  {
  }

  /**
   * With finite sizes and a nonzero count, `count` cells fill the film less
   * its two margins plus the two outer paddings, and the size shown to
   * `-geometry` is the cell less both paddings.
   */
  lemma CellsFillFilm(fmt: NumberFormat, film: real, margin: real, padding: real, count: real)
    requires film != 0.0 && count != 0.0
    ensures var c := CellSize(fmt, Number(Finite(film)), Number(Finite(margin)), Finite(padding), Number(Finite(count)));
      && c.Some? && c.value.Finite?
      && c.value.r * count == film - 2.0 * margin + 2.0 * padding
      && Inner(c.value, Finite(padding)) == Finite(c.value.r - 2.0 * padding)
  {
    var total := film - margin * 2.0 + padding * 2.0;
    var c := CellSize(fmt, Number(Finite(film)), Number(Finite(margin)), Finite(padding), Number(Finite(count)));
    assert c == Some(Finite(total / count));
    assert (total / count) * count == total;
  }

  /** A falsy film size leaves the cell size null, so `-geometry` gets no number on that side. */
  lemma NoFilmNoCell(fmt: NumberFormat, film: Value, margin: Value, padding: Num, count: Value)
    requires !Truthy(film)
    ensures !CellShown(CellSize(fmt, film, margin, padding, count))
  {
  }

  // ---------------------------------------------------------------------
  // Properties of the argument strings

  predicate StartsWith(x: string, prefix: string) { |prefix| <= |x| && x[..|prefix|] == prefix }

  /** What the text of a number never holds: a space, a double quote or an `x`. */
  predicate PlainNumberText(t: string) {
    |t| > 0 && forall i :: 0 <= i < |t| ==> t[i] != ' ' && t[i] != '"' && t[i] != 'x'
  }

  lemma ShowNumPlain(fmt: NumberFormat, n: Num)
    requires NumeralFormatter(fmt)
    ensures PlainNumberText(ShowNum(fmt, n))
  {
    if n.Finite? {
      var t := fmt.show(n.r);
      assert |t| > 0 && forall i :: 0 <= i < |t| ==> NumeralChar(t[i]);
    }
  }

  /** A montage input token: `null:` or a quoted path. */
  predicate TokenShaped(t: string) { t == Empty || (|t| > 0 && t[0] == '"') }

  lemma {:induction false} CompletedTokensShaped(pending: seq<Pending>, io: seq<SlotIO>, order: seq<nat>)
    ensures forall k :: 0 <= k < |order| ==> TokenShaped(CompletedTokens(pending, io, order)[k])
  {
    if order != [] {
      CompletedTokensShaped(pending, io, order[..|order| - 1]);
    }
  }

  /** Every token `mosaic` hands to `montage` is `null:` or a quoted path. */
  lemma TokensShaped(pending: seq<Pending>, io: seq<SlotIO>, order: seq<nat>)
    ensures forall k :: 0 <= k < |Tokens(pending, io, order)| ==> TokenShaped(Tokens(pending, io, order)[k])
  {
    var e := EmptyTokens(pending);
    var c := CompletedTokens(pending, io, order);
    CompletedTokensShaped(pending, io, order);
    forall k | 0 <= k < |e + c|
      ensures TokenShaped((e + c)[k])
    {
      if k < |e| { assert (e + c)[k] == e[k]; } else { assert (e + c)[k] == c[k - |e|]; }
    }
  }

  lemma JoinHead(parts: seq<string>, sep: string)
    requires parts != [] && parts[0] != ""
    ensures |Join(parts, sep)| > 0 && Join(parts, sep)[0] == parts[0][0]
  {
  }

  lemma FilesPieceShape(tokens: seq<string>)
    requires forall k :: 0 <= k < |tokens| ==> TokenShaped(tokens[k])
    ensures var x := FilesPiece(tokens);
      |x| >= 2 && x[0] == ' ' && x[|x| - 1] == ' ' && (|x| == 2 || x[1] == 'n' || x[1] == '"')
  {
    if tokens != [] {
      assert TokenShaped(tokens[0]);
      JoinHead(tokens, " ");
      assert FilesPiece(tokens)[1] == Join(tokens, " ")[0];
    }
  }

  lemma HeadHasNoTrim(fmt: NumberFormat, opts: seq<Entry>, tokens: seq<string>)
    requires forall k :: 0 <= k < |tokens| ==> TokenShaped(tokens[k])
    ensures " -trim " !in MontageHead(fmt, opts, tokens)
  {
    FilesPieceShape(tokens);
    var x := FilesPiece(tokens);
    assert x != " -trim " by { if |x| != 2 { assert x[1] != " -trim "[1]; } }
    var t := TilePiece(fmt, Lookup(opts, "columns"), Lookup(opts, "rows"));
    assert t[..7] == " -tile ";
  }

  lemma GeometryHasNoTrim(fmt: NumberFormat, g: Geometry)
    requires NumeralFormatter(fmt)
    ensures " -trim " !in MontageGeometry(fmt, g)
  {
    if CellShown(g.cellWidth) {
      var n := Inner(g.cellWidth.value, g.padding);
      ShowNumPlain(fmt, n);
      var w := WidthPiece(fmt, n);
      assert w != " -trim " by { assert |w| != 7 || w[6] != ' '; }
    }
    if CellShown(g.cellHeight) {
      var h := ShowNum(fmt, Inner(g.cellHeight.value, g.padding));
      ShowNumPlain(fmt, Inner(g.cellHeight.value, g.padding));
      assert h[0] != ' ';
    }
    assert OffsetPiece(fmt, g.padding)[0] == '+';
  }

  lemma TailTrim(fmt: NumberFormat, opts: seq<Entry>, destFile: string)
    ensures " -trim " in MontageTail(fmt, opts, destFile) <==> Truthy(Lookup(opts, "trim"))
  {
    var b := BackgroundPiece(fmt, Lookup(opts, "background"));
    assert b[..13] == " -background ";
    assert OutputPiece(destFile)[1] == '"';
  }

  /** `-trim` is among the `montage` arguments iff `trim` is truthy. */
  lemma TrimIff(fmt: NumberFormat, opts: seq<Entry>, g: Geometry, tokens: seq<string>, destFile: string)
    requires NumeralFormatter(fmt)
    requires forall k :: 0 <= k < |tokens| ==> TokenShaped(tokens[k])
    ensures " -trim " in MontagePieces(fmt, opts, g, tokens, destFile) <==> Truthy(Lookup(opts, "trim"))
  {
    HeadHasNoTrim(fmt, opts, tokens);
    GeometryHasNoTrim(fmt, g);
    TailTrim(fmt, opts, destFile);
  }

  /** A piece not ending in a space is none of the head's. */
  lemma NotInHead(fmt: NumberFormat, opts: seq<Entry>, tokens: seq<string>, x: string)
    requires forall k :: 0 <= k < |tokens| ==> TokenShaped(tokens[k])
    requires |x| > 0 && x[|x| - 1] != ' '
    ensures x !in MontageHead(fmt, opts, tokens)
  {
    FilesPieceShape(tokens);
  }

  /** A piece not ending in a space, whose second character is no quote, is none of the tail's. */
  lemma NotInTail(fmt: NumberFormat, opts: seq<Entry>, destFile: string, x: string)
    requires |x| > 0 && x[|x| - 1] != ' ' && (|x| < 2 || x[1] != '"')
    ensures x !in MontageTail(fmt, opts, destFile)
  {
    assert OutputPiece(destFile)[1] == '"';
  }

  lemma HeadTile(fmt: NumberFormat, opts: seq<Entry>, tokens: seq<string>)
    requires forall k :: 0 <= k < |tokens| ==> TokenShaped(tokens[k])
    ensures (exists x :: x in MontageHead(fmt, opts, tokens) && StartsWith(x, " -tile "))
            <==> Truthy(Lookup(opts, "columns"))
  {
    var columns := Lookup(opts, "columns");
    if Truthy(columns) {
      var t := TilePiece(fmt, columns, Lookup(opts, "rows"));
      TilePieceStarts(fmt, columns, Lookup(opts, "rows"));
      assert t in MontageHead(fmt, opts, tokens);
    } else {
      FilesPieceShape(tokens);
      var f := FilesPiece(tokens);
      DiffersAt(f, " -tile ", if |f| == 2 then 2 else 1);
      assert MontageHead(fmt, opts, tokens) == [f];
    }
  }

  lemma TilePieceStarts(fmt: NumberFormat, columns: Value, rows: Value)
    ensures StartsWith(TilePiece(fmt, columns, rows), " -tile ")
  {
    var t := TilePiece(fmt, columns, rows);
    assert t[..7] == " -tile ";
  }

  lemma DiffersAt(x: string, prefix: string, i: nat)
    requires i < |prefix| && (i >= |x| || x[i] != prefix[i])
    ensures !StartsWith(x, prefix)
  {
  }

  lemma GeometryHasNoTile(fmt: NumberFormat, g: Geometry)
    requires NumeralFormatter(fmt)
    ensures forall x :: x in MontageGeometry(fmt, g) ==> !StartsWith(x, " -tile ")
  {
    var tile := " -tile ";
    DiffersAt(" -geometry ", tile, 2);
    DiffersAt("x", tile, 0);
    ShowNumPlain(fmt, g.padding);
    DiffersAt(OffsetPiece(fmt, g.padding), tile, 0);
    if CellShown(g.cellWidth) {
      var n := Inner(g.cellWidth.value, g.padding);
      ShowNumPlain(fmt, n);
      DiffersAt(WidthPiece(fmt, n), tile, 6);
    }
    if CellShown(g.cellHeight) {
      var n := Inner(g.cellHeight.value, g.padding);
      ShowNumPlain(fmt, n);
      DiffersAt(ShowNum(fmt, n), tile, 0);
    }
  }

  lemma TailHasNoTile(fmt: NumberFormat, opts: seq<Entry>, destFile: string)
    ensures forall x :: x in MontageTail(fmt, opts, destFile) ==> !StartsWith(x, " -tile ")
  {
    var b := BackgroundPiece(fmt, Lookup(opts, "background"));
    assert b[2] == 'b';
    assert " -trim "[3] != " -tile "[3];
    assert OutputPiece(destFile)[1] == '"';
  }

  /** A `-tile` term is among the `montage` arguments iff `columns` is truthy. */
  lemma TileIff(fmt: NumberFormat, opts: seq<Entry>, g: Geometry, tokens: seq<string>, destFile: string)
    requires NumeralFormatter(fmt)
    requires forall k :: 0 <= k < |tokens| ==> TokenShaped(tokens[k])
    ensures (exists x :: x in MontagePieces(fmt, opts, g, tokens, destFile) && StartsWith(x, " -tile "))
            <==> Truthy(Lookup(opts, "columns"))
  {
    HeadTile(fmt, opts, tokens);
    GeometryHasNoTile(fmt, g);
    TailHasNoTile(fmt, opts, destFile);
  }

  lemma GeometryWithoutWidth(fmt: NumberFormat, g: Geometry, n: Num)
    requires NumeralFormatter(fmt)
    requires !CellShown(g.cellWidth)
    ensures WidthPiece(fmt, n) !in MontageGeometry(fmt, g)
  {
    var w := WidthPiece(fmt, n);
    ShowNumPlain(fmt, n);
    if CellShown(g.cellHeight) {
      ShowNumPlain(fmt, Inner(g.cellHeight.value, g.padding));
      assert ShowNum(fmt, Inner(g.cellHeight.value, g.padding))[0] != w[0];
    }
    assert OffsetPiece(fmt, g.padding)[0] != w[0];
    assert w[|w| - 1] != ' ';
  }

  lemma GeometryWithoutHeight(fmt: NumberFormat, g: Geometry, n: Num)
    requires NumeralFormatter(fmt)
    requires !CellShown(g.cellHeight)
    ensures ShowNum(fmt, n) !in MontageGeometry(fmt, g)
  {
    var h := ShowNum(fmt, n);
    ShowNumPlain(fmt, n);
    if CellShown(g.cellWidth) {
      assert WidthPiece(fmt, Inner(g.cellWidth.value, g.padding))[0] != h[0];
    }
    assert h != "x" by { assert h[0] != 'x'; }
    assert h[|h| - 1] != ' ';
  }

  /**
   * The width goes to `-geometry` iff the cell width is shown: when it is not,
   * no width term is among the `montage` arguments at all.
   */
  lemma WidthIff(fmt: NumberFormat, opts: seq<Entry>, g: Geometry, tokens: seq<string>, destFile: string)
    requires NumeralFormatter(fmt)
    requires forall k :: 0 <= k < |tokens| ==> TokenShaped(tokens[k])
    ensures CellShown(g.cellWidth)
            ==> WidthPiece(fmt, Inner(g.cellWidth.value, g.padding)) in MontagePieces(fmt, opts, g, tokens, destFile)
    ensures !CellShown(g.cellWidth)
            ==> forall n :: WidthPiece(fmt, n) !in MontagePieces(fmt, opts, g, tokens, destFile)
  {
    if !CellShown(g.cellWidth) {
      forall n
        ensures WidthPiece(fmt, n) !in MontagePieces(fmt, opts, g, tokens, destFile)
      {
        var w := WidthPiece(fmt, n);
        ShowNumPlain(fmt, n);
        assert w[|w| - 1] != ' ' && w[1] != '"';
        NotInHead(fmt, opts, tokens, w);
        GeometryWithoutWidth(fmt, g, n);
        NotInTail(fmt, opts, destFile, w);
      }
    }
  }

  /**
   * The height goes to `-geometry` iff the cell height is shown: when it is not,
   * no number's text is among the `montage` arguments at all.
   */
  lemma HeightIff(fmt: NumberFormat, opts: seq<Entry>, g: Geometry, tokens: seq<string>, destFile: string)
    requires NumeralFormatter(fmt)
    requires forall k :: 0 <= k < |tokens| ==> TokenShaped(tokens[k])
    ensures CellShown(g.cellHeight)
            ==> ShowNum(fmt, Inner(g.cellHeight.value, g.padding)) in MontagePieces(fmt, opts, g, tokens, destFile)
    ensures !CellShown(g.cellHeight)
            ==> forall n :: ShowNum(fmt, n) !in MontagePieces(fmt, opts, g, tokens, destFile)
  {
    if !CellShown(g.cellHeight) {
      forall n
        ensures ShowNum(fmt, n) !in MontagePieces(fmt, opts, g, tokens, destFile)
      {
        var h := ShowNum(fmt, n);
        ShowNumPlain(fmt, n);
        assert h[|h| - 1] != ' ' && (|h| < 2 || h[1] != '"');
        NotInHead(fmt, opts, tokens, h);
        GeometryWithoutHeight(fmt, g, n);
        NotInTail(fmt, opts, destFile, h);
      }
    }
  }

  lemma ConvertPieceStarts(fmt: NumberFormat, opts: seq<Entry>, g: Geometry, destFile: string)
    ensures StartsWith(BorderPiece(fmt, Lookup(opts, "background"), Lookup(opts, "pageMargin")), " -bordercolor ")
    ensures StartsWith(RotatePiece(fmt, Lookup(opts, "pageRotation")), " -rotate ")
    ensures var x := ShavePiece(fmt, g.padding); |x| > 2 && x[2] == 's'
    ensures var x := Quote(destFile) + " "; |x| > 0 && x[0] == '"'
    ensures var x := OutputPiece(destFile); |x| > 1 && x[1] == '"'
  {
    BorderPieceStarts(fmt, Lookup(opts, "background"), Lookup(opts, "pageMargin"));
    RotatePieceStarts(fmt, Lookup(opts, "pageRotation"));
    ShavePieceStarts(fmt, g.padding);
    assert OutputPiece(destFile)[1] == '"';
  }

  lemma ShavePieceStarts(fmt: NumberFormat, padding: Num)
    ensures var x := ShavePiece(fmt, padding); |x| > 2 && x[2] == 's'
  {
    var n := ShowNum(fmt, padding);
    PrefixChar(" -shave ", n + "x" + n + " +repage ", 2);
    assert ShavePiece(fmt, padding) == " -shave " + (n + "x" + n + " +repage ");
  }

  lemma PrefixChar(p: string, rest: string, i: nat)
    requires i < |p|
    ensures (p + rest)[i] == p[i]
  {
  }

  lemma BorderPieceStarts(fmt: NumberFormat, background: Value, margin: Value)
    ensures StartsWith(BorderPiece(fmt, background, margin), " -bordercolor ")
  {
    assert BorderPiece(fmt, background, margin)[..14] == " -bordercolor ";
  }

  lemma RotatePieceStarts(fmt: NumberFormat, rotation: Value)
    ensures StartsWith(RotatePiece(fmt, rotation), " -rotate ")
  {
    assert RotatePiece(fmt, rotation)[..9] == " -rotate ";
  }

  /**
   * The shape of the `convert` pieces, whatever their text: a quoted input, a
   * `-shave` term, the optional border and rotation runs, a quoted output.
   * A border term is present iff the border run is, and likewise for rotation.
   */
  lemma ConvertFlags(input: string, shave: string, border: seq<string>, rotate: seq<string>, output: string)
    requires |input| > 0 && input[0] == '"'
    requires |shave| > 2 && shave[2] == 's'
    requires |output| > 1 && output[1] == '"'
    requires forall y :: y in border ==> StartsWith(y, " -bordercolor ")
    requires forall y :: y in rotate ==> StartsWith(y, " -rotate ")
    ensures (exists x :: x in [input, shave] + border + rotate + [output] && StartsWith(x, " -bordercolor "))
            <==> border != []
    ensures (exists x :: x in [input, shave] + border + rotate + [output] && StartsWith(x, " -rotate "))
            <==> rotate != []
  {
    var all := [input, shave] + border + rotate + [output];
    DiffersAt(input, " -bordercolor ", 0);
    DiffersAt(shave, " -bordercolor ", 2);
    DiffersAt(output, " -bordercolor ", 1);
    DiffersAt(input, " -rotate ", 0);
    DiffersAt(shave, " -rotate ", 2);
    DiffersAt(output, " -rotate ", 1);
    forall y | y in rotate
      ensures !StartsWith(y, " -bordercolor ")
    {
      DiffersAt(y, " -bordercolor ", 2);
    }
    forall y | y in border
      ensures !StartsWith(y, " -rotate ")
    {
      DiffersAt(y, " -rotate ", 2);
    }
    if border != [] {
      assert border[0] in all;
    }
    if rotate != [] {
      assert rotate[0] in all;
    }
  }

  /** A `-bordercolor … -border` term is among the `convert` arguments iff `pageMargin` is truthy. */
  lemma BorderIff(fmt: NumberFormat, opts: seq<Entry>, g: Geometry, destFile: string)
    ensures (exists x :: x in ConvertPieces(fmt, opts, g, destFile) && StartsWith(x, " -bordercolor "))
            <==> Truthy(Lookup(opts, "pageMargin"))
  {
    ConvertPiecesFlags(fmt, opts, g, destFile);
  }

  /** A `-rotate` term is among the `convert` arguments iff `pageRotation` is truthy. */
  lemma RotateIff(fmt: NumberFormat, opts: seq<Entry>, g: Geometry, destFile: string)
    ensures (exists x :: x in ConvertPieces(fmt, opts, g, destFile) && StartsWith(x, " -rotate "))
            <==> Truthy(Lookup(opts, "pageRotation"))
  {
    ConvertPiecesFlags(fmt, opts, g, destFile);
  }

  lemma ConvertPiecesFlags(fmt: NumberFormat, opts: seq<Entry>, g: Geometry, destFile: string)
    ensures (exists x :: x in ConvertPieces(fmt, opts, g, destFile) && StartsWith(x, " -bordercolor "))
            <==> Truthy(Lookup(opts, "pageMargin"))
    ensures (exists x :: x in ConvertPieces(fmt, opts, g, destFile) && StartsWith(x, " -rotate "))
            <==> Truthy(Lookup(opts, "pageRotation"))
  {
    var margin := Lookup(opts, "pageMargin");
    var rotation := Lookup(opts, "pageRotation");
    ConvertPieceStarts(fmt, opts, g, destFile);
    ConvertFlags(Quote(destFile) + " ", ShavePiece(fmt, g.padding),
                 if Truthy(margin) then [BorderPiece(fmt, Lookup(opts, "background"), margin)] else [],
                 if Truthy(rotation) then [RotatePiece(fmt, rotation)] else [],
                 OutputPiece(destFile));
  }
}
