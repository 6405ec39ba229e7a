/**
 * `dcm2pnm` and `compress` of src/index.ts: resolve the DICOM source to a
 * file name, build the argument string for the DICOM toolkit, run it once,
 * and settle. The toolkit's exit and the dataset's serialisation are given
 * as outcomes; every side effect is recorded as a `Call`.
 */
module Commands {
  import opened Js
  import opened Outcomes
  import opened Units
  import opened Options

  /**
   * A DICOM source: a file path, or an in-memory dataset whose `toFile`
   * either succeeds or throws. `null` and `undefined` are what an untyped
   * caller (or an emptied mosaic slot) can still pass.
   */
  datatype Source = Path(path: string) | Dataset(writable: bool) | NullSource | UndefinedSource

  predicate TruthySource(s: Source) {
    match s
    case Path(p) => p != ""
    case Dataset(_) => true
    case _ => false
  }

  /** The file name `dcmFileName` ends up holding, and the calls made to get it. */
  datatype Resolution = Resolution(input: Result<Value>, calls: seq<Call>)

  /** `isDataset(dcm) ? (dcm.toFile(tempPath()), tempPath) : dcm`, with `scratch` the fresh temp path. */
  function Resolve(src: Source, scratch: string): (r: Resolution)
    ensures r.input.Err? <==> src == Dataset(false)
    ensures r.input.Err? ==> r.input.error == UnableToOpen
    ensures r.calls == (if src.Dataset? then [ToFile(scratch)] else [])
    ensures src.Dataset? && r.input.Ok? ==> r.input.value == Str(scratch)
    ensures src.Path? ==> r.input == Ok(Str(src.path))
  {
    match src
    case Dataset(w) => Resolution(if w then Ok(Str(scratch)) else Err(UnableToOpen), [ToFile(scratch)])
    case Path(p) => Resolution(Ok(Str(p)), [])
    case NullSource => Resolution(Ok(Null), [])
    case UndefinedSource => Resolution(Ok(Undefined), [])
  }

  function Quote(s: string): string { "\"" + s + "\"" }

  /** The orientation flag for the two flip options. */
  function FlipFlag(flipV: Value, flipH: Value): string {
    if Truthy(flipV) && Truthy(flipH) then "+Lhv"
    else if Truthy(flipH) then "+Lh"
    else if Truthy(flipV) then "+Lv"
    else ""
  }

  predicate SupportedFormat(format: string) {
    format in {"jpg", "jpeg", "tiff", "bmp", "png"}
  }

  /** The `dcmj2pnm` argument string for `format`, or None for a format the switch rejects. */
  function Dcm2pnmArgs(fmt: NumberFormat, format: string, input: string, destFile: string, opts: seq<Entry>): (r: Option<string>)
    ensures r.Some? <==> SupportedFormat(format)
  {
    if SupportedFormat(format) then Some(ArgsHead(fmt, format, input, opts) + Quote(destFile)) else None
  }

  /** The write switch of a supported format: `jpg` and `jpeg` both write JPEG. */
  function WriteSwitch(format: string): string {
    if format == "jpg" || format == "jpeg" then "--write-jpeg " else "--write-" + format + " "
  }

  /** What follows the quoted input: the JPEG quality for JPEG, then the orientation flag. */
  function ArgsMiddle(fmt: NumberFormat, format: string, opts: seq<Entry>): string {
    var flip := FlipFlag(Lookup(opts, "flipV"), Lookup(opts, "flipH"));
    if format == "jpg" || format == "jpeg" then " --compr-quality " + ToText(fmt, Lookup(opts, "quality")) + " " + flip + " "
    else "  " + flip + " "
  }

  /** Everything of a `dcmj2pnm` argument string before the quoted output path. */
  function ArgsHead(fmt: NumberFormat, format: string, input: string, opts: seq<Entry>): string {
    WriteSwitch(format) + Quote(input) + ArgsMiddle(fmt, format, opts)
  }

  datatype Option<T> = None | Some(value: T)

  function ExecOutcome<T>(exec: ExecResult, value: T): Outcome<T> {
    match exec
    case Succeeded => Resolved(value)
    case Failed(m) => Rejected(ToolFailed(m))
  }

  /**
   * `dcm2pnm(format, dcm, destFile, options)`. `scratch` is the temp path a
   * dataset is written to and `exec` what `dcmj2pnm` reports.
   */
  function Dcm2pnm(fmt: NumberFormat, format: string, dcm: Source, destFile: string, options: seq<Entry>,
                   scratch: string, exec: ExecResult): (run: Run<()>)
    ensures run.outcome.Thrown? <==> Merged(fmt, [], options).Err?
    ensures run.outcome.Thrown? ==> run.calls == []
    ensures !run.outcome.Thrown? ==> |run.calls| > 0 && run.calls[|run.calls| - 1] == Sweep
    ensures !SupportedFormat(format) ==> NoExec(run.calls)
    ensures NoImagick(run.calls)
    ensures run.outcome.Resolved? <==>
      Merged(fmt, [], options).Ok? && dcm != Dataset(false) && SupportedFormat(format) && exec.Succeeded?
    ensures Merged(fmt, [], options).Ok? && dcm == Dataset(false) ==>
      run == Run(Rejected(UnableToOpen), [ToFile(scratch), Sweep])
    ensures Merged(fmt, [], options).Ok? && dcm != Dataset(false) && SupportedFormat(format) && exec.Failed? ==>
      run.outcome == Rejected(ToolFailed(exec.message))
  {
    match Merged(fmt, [], options)
    case Err(e) => Run(Thrown(e), [])
    case Ok(opts) =>
      var res := Resolve(dcm, scratch);
      Swept(res.calls, [Sweep]);
      match res.input
      case Err(e) =>
        assert res.calls + [Sweep] == [ToFile(scratch), Sweep];
        Run(Rejected(e), res.calls + [Sweep])
      case Ok(input) =>
        match Dcm2pnmArgs(fmt, format, ToText(fmt, input), destFile, opts)
        case None => Run(Rejected(InvalidFormat(format)), res.calls + [Sweep])
        case Some(args) =>
          Swept(res.calls, [Dcmtk("dcmj2pnm", args), Sweep]);
          Run(ExecOutcome(exec, ()), res.calls + [Dcmtk("dcmj2pnm", args), Sweep])
  }

  /** Closing a run with the sweep: what ran before it is kept, and the sweep is last. */
  lemma Swept(pre: seq<Call>, tail: seq<Call>)
    requires NoImagick(pre) && NoExec(pre)
    requires 0 < |tail| <= 2 && tail[|tail| - 1] == Sweep && (|tail| == 2 ==> tail[0].Dcmtk?)
    ensures var c := pre + tail;
      && |c| > 0 && c[|c| - 1] == Sweep && NoImagick(c) && (|tail| == 1 ==> NoExec(c))
  {
    var c := pre + tail;
    assert forall i :: 0 <= i < |pre| ==> c[i] == pre[i];
    assert forall i :: |pre| <= i < |c| ==> c[i] == tail[i - |pre|];
  }

  /** The `dcmcjpls` argument string. */
  function CompressArgs(input: string, destFile: string): string {
    Quote(input) + "  " + Quote(destFile)
  }

  /**
   * `compress(dcm, destFile)`: resolves with the file it compressed (the
   * temp path for a dataset), not with `destFile`.
   */
  function Compress(fmt: NumberFormat, dcm: Source, destFile: string, scratch: string, exec: ExecResult): (run: Run<Value>)
    ensures !run.outcome.Thrown?
    ensures dcm == Dataset(false) ==> run == Run(Rejected(UnableToOpen), [ToFile(scratch)])
    ensures run.outcome.Resolved? <==> dcm != Dataset(false) && exec.Succeeded?
    ensures run.outcome.Resolved? ==> run.outcome.value == Resolve(dcm, scratch).input.value
    ensures dcm != Dataset(false) ==>
      run.calls == Resolve(dcm, scratch).calls
                 + [Dcmtk("dcmcjpls", CompressArgs(ToText(fmt, Resolve(dcm, scratch).input.value), destFile))]
    ensures exec.Failed? && dcm != Dataset(false) ==> run.outcome == Rejected(ToolFailed(exec.message))
  {
    var res := Resolve(dcm, scratch);
    match res.input
    case Err(e) => Run(Rejected(e), res.calls)
    case Ok(input) => Run(ExecOutcome(exec, input), res.calls + [Dcmtk("dcmcjpls", CompressArgs(ToText(fmt, input), destFile))])
  }

  // ---------------------------------------------------------------------
  // Properties

  /** The orientation flag, row by row. */
  lemma FlipTruthTable(flipV: Value, flipH: Value)
    ensures FlipFlag(flipV, flipH) == "+Lhv" <==> Truthy(flipV) && Truthy(flipH)
    ensures FlipFlag(flipV, flipH) == "+Lh" <==> !Truthy(flipV) && Truthy(flipH)
    ensures FlipFlag(flipV, flipH) == "+Lv" <==> Truthy(flipV) && !Truthy(flipH)
    ensures FlipFlag(flipV, flipH) == "" <==> !Truthy(flipV) && !Truthy(flipH)
  {
  }

  /** `jpg` and `jpeg` are the same command. */
  lemma JpgIsJpeg(fmt: NumberFormat, input: string, destFile: string, opts: seq<Entry>)
    ensures Dcm2pnmArgs(fmt, "jpg", input, destFile, opts) == Dcm2pnmArgs(fmt, "jpeg", input, destFile, opts)
  {
  }

  lemma OccursInMiddle(a: string, b: string, c: string)
    ensures OccursAt(a + b + c, b, |a|)
  {
    assert (a + b + c)[|a|..|a| + |b|] == b;
  }

  /** The JPEG argument string holds `--compr-quality <quality>`. */
  lemma JpegCarriesQuality(fmt: NumberFormat, format: string, input: string, destFile: string, opts: seq<Entry>)
    requires format == "jpg" || format == "jpeg"
    ensures exists j :: OccursAt(Dcm2pnmArgs(fmt, format, input, destFile, opts).value,
                                 " --compr-quality " + ToText(fmt, Lookup(opts, "quality")) + " ", j)
  {
    var pat := " --compr-quality " + ToText(fmt, Lookup(opts, "quality")) + " ";
    var front := WriteSwitch(format) + Quote(input);
    var flip := FlipFlag(Lookup(opts, "flipV"), Lookup(opts, "flipH"));
    var mid := flip + " ";
    assert ArgsMiddle(fmt, format, opts) == pat + mid;
    assert ArgsHead(fmt, format, input, opts) == front + (pat + mid);
    assert SupportedFormat(format);
    Regroup(front, pat, mid, Quote(destFile));
    assert Dcm2pnmArgs(fmt, format, input, destFile, opts) == Some(front + pat + (mid + Quote(destFile)));
    OccursInMiddle(front, pat, mid + Quote(destFile));
  }

  lemma Regroup(a: string, b: string, c: string, d: string)
    ensures a + (b + c) + d == a + b + (c + d)
  {
  }

  /** For TIFF, BMP and PNG the quality is not part of the command: changing it leaves the arguments as they were. */
  lemma QualityIgnoredOtherwise(fmt: NumberFormat, format: string, input: string, destFile: string, opts: seq<Entry>, q: Value)
    requires format in {"tiff", "bmp", "png"}
    ensures Dcm2pnmArgs(fmt, format, input, destFile, Put(opts, "quality", q)) == Dcm2pnmArgs(fmt, format, input, destFile, opts)
  {
    PutLookup(opts, "quality", q, "flipV");
    PutLookup(opts, "quality", q, "flipH");
  }

  predicate QuoteFree(s: string) { forall i :: 0 <= i < |s| ==> s[i] != '"' }

  /** The index of the first double quote of `s` (`|s|` when there is none). */
  function FirstQuote(s: string): (r: nat)
    ensures r <= |s|
  {
    if s == [] then 0 else if s[0] == '"' then 0 else 1 + FirstQuote(s[1..])
  }

  lemma {:induction false} FirstQuoteAfter(a: string, rest: string)
    requires QuoteFree(a)
    ensures FirstQuote(a + "\"" + rest) == |a|
  {
    if a != [] {
      assert (a + "\"" + rest)[1..] == a[1..] + "\"" + rest;
      FirstQuoteAfter(a[1..], rest);
    }
  }

  /** The number of quote-free characters at the end of `s`. */
  function QuoteFreeTail(s: string): (r: nat)
    ensures r <= |s|
  {
    if s == [] then 0 else if s[|s| - 1] == '"' then 0 else 1 + QuoteFreeTail(s[..|s| - 1])
  }

  lemma {:induction false} QuoteFreeTailAfter(front: string, b: string)
    requires QuoteFree(b)
    ensures QuoteFreeTail(front + "\"" + b) == |b|
  {
    if b != [] {
      assert (front + "\"" + b)[..|front| + |b|] == front + "\"" + b[..|b| - 1];
      QuoteFreeTailAfter(front, b[..|b| - 1]);
    }
  }

  /** What precedes the first double quote of `a + "\"" + rest` is `a`, when `a` has no quote. */
  lemma QuotePrefix(a: string, rest: string, a': string, rest': string)
    requires QuoteFree(a) && QuoteFree(a')
    requires a + "\"" + rest == a' + "\"" + rest'
    ensures a == a' && rest == rest'
  {
    var s := a + "\"" + rest;
    FirstQuoteAfter(a, rest);
    FirstQuoteAfter(a', rest');
    assert a == s[..|a|] == a';
    assert rest == s[|a| + 1..] == rest';
  }

  /** What follows the second-to-last double quote of `front + Quote(b)` is `b`, when `b` has no quote. */
  lemma QuoteSuffix(front: string, b: string, front': string, b': string)
    requires QuoteFree(b) && QuoteFree(b')
    requires front + Quote(b) == front' + Quote(b')
    ensures front == front' && b == b'
  {
    var s := front + Quote(b);
    var n := |s|;
    assert s[..n - 1] == front + "\"" + b;
    assert s[..n - 1] == front' + "\"" + b';
    QuoteFreeTailAfter(front, b);
    QuoteFreeTailAfter(front', b');
    assert front == s[..n - |b| - 2] == front';
    assert b == s[n - |b| - 1..n - 1] == b';
  }

  /**
   * The `compress` argument string is the quoted input followed by the
   * quoted destination: for quote-free paths both can be read back from it.
   */
  lemma CompressArgsUnambiguous(input: string, destFile: string, input': string, destFile': string)
    requires QuoteFree(input) && QuoteFree(destFile) && QuoteFree(input') && QuoteFree(destFile')
    requires CompressArgs(input, destFile) == CompressArgs(input', destFile')
    ensures input == input' && destFile == destFile'
  {
    var s := CompressArgs(input, destFile);
    assert s == "\"" + (input + "\"" + ("  " + Quote(destFile)));
    assert s == "\"" + (input' + "\"" + ("  " + Quote(destFile')));
    assert s[1..] == input + "\"" + ("  " + Quote(destFile));
    assert s[1..] == input' + "\"" + ("  " + Quote(destFile'));
    QuotePrefix(input, "  " + Quote(destFile), input', "  " + Quote(destFile'));
    assert "  " + Quote(destFile) == "  " + Quote(destFile');
    QuoteSuffix("  ", destFile, "  ", destFile');
  }

  /**
   * In a `dcmj2pnm` command the input and output paths are quoted, the
   * output last: for quote-free paths both are read back from it.
   */
  lemma Dcm2pnmArgsUnambiguous(fmt: NumberFormat, format: string, input: string, destFile: string, opts: seq<Entry>,
                               input': string, destFile': string)
    requires SupportedFormat(format)
    requires QuoteFree(input) && QuoteFree(destFile) && QuoteFree(input') && QuoteFree(destFile')
    requires Dcm2pnmArgs(fmt, format, input, destFile, opts) == Dcm2pnmArgs(fmt, format, input', destFile', opts)
    ensures input == input' && destFile == destFile'
  {
    var head := ArgsHead(fmt, format, input, opts);
    var head' := ArgsHead(fmt, format, input', opts);
    assert head + Quote(destFile) == head' + Quote(destFile');
    QuoteSuffix(head, destFile, head', destFile');
    QuotedBetween(WriteSwitch(format), input, ArgsMiddle(fmt, format, opts), input');
  }

  /** A quote-free text between fixed surroundings is read back from `w + Quote(x) + m`. */
  lemma QuotedBetween(w: string, x: string, m: string, x': string)
    requires QuoteFree(x) && QuoteFree(x')
    requires w + Quote(x) + m == w + Quote(x') + m
    ensures x == x'
  {
    var s := w + Quote(x) + m;
    assert s[|w| + 1..] == x + "\"" + m;
    assert s[|w| + 1..] == x' + "\"" + m;
    QuotePrefix(x, m, x', m);
  }

  /** An unsupported format rejects with "invalid format" once the source is resolved, and never runs the toolkit. */
  lemma InvalidFormatRejects(fmt: NumberFormat, format: string, dcm: Source, destFile: string, options: seq<Entry>,
                             scratch: string, exec: ExecResult)
    requires !SupportedFormat(format)
    requires Merged(fmt, [], options).Ok? && dcm != Dataset(false)
    ensures Dcm2pnm(fmt, format, dcm, destFile, options, scratch, exec)
         == Run(Rejected(InvalidFormat(format)), Resolve(dcm, scratch).calls + [Sweep])
  {
  }

  /** For a supported format the toolkit runs exactly once, on the argument string, and the sweep follows it. */
  lemma ConvertRunsOnce(fmt: NumberFormat, format: string, dcm: Source, destFile: string, options: seq<Entry>,
                        scratch: string, exec: ExecResult)
    requires SupportedFormat(format)
    requires Merged(fmt, [], options).Ok? && dcm != Dataset(false)
    ensures var opts := Merged(fmt, [], options).value;
      var input := ToText(fmt, Resolve(dcm, scratch).input.value);
      Dcm2pnm(fmt, format, dcm, destFile, options, scratch, exec).calls
        == Resolve(dcm, scratch).calls + [Dcmtk("dcmj2pnm", Dcm2pnmArgs(fmt, format, input, destFile, opts).value), Sweep]
  {
  }

  /** `dcm2pnm` throws only for a `null` inside its options, never for an invalid DPI. */
  lemma Dcm2pnmThrowsOnlyNull(fmt: NumberFormat, format: string, dcm: Source, destFile: string, options: seq<Entry>,
                              scratch: string, exec: ExecResult)
    ensures var run := Dcm2pnm(fmt, format, dcm, destFile, options, scratch, exec);
      run.outcome.Thrown? ==> run.outcome.error == NullDpiRead
  {
    MergeOnlyNullFails(fmt, [], options);
  }

  /** A dataset that cannot be written rejects `compress` before any toolkit run. */
  lemma CompressDatasetFailure(fmt: NumberFormat, destFile: string, scratch: string, exec: ExecResult)
    ensures Compress(fmt, Dataset(false), destFile, scratch, exec).outcome == Rejected(UnableToOpen)
    ensures NoExec(Compress(fmt, Dataset(false), destFile, scratch, exec).calls)
  {
  }
}
