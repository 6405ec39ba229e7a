/**
 * The errors src/index.ts raises or passes on, and the ways an operation can end.
 */
module Outcomes {
  import opened Js

  datatype Error =
    | InvalidDpi(dpi: Value)         // 'Invalid value for dpi:' + dpi (src/index.ts:292)
    | NullDpiRead                    // TypeError from reading `null.dpi` (src/index.ts:305)
    | UnableToOpen                   // 'Unable to open dicom file: ' + dcm (src/index.ts:104, 138)
    | InvalidFormat(format: string)  // 'DcmConvert.dcm2pnm Error - invalid format: ' + format (src/index.ts:161)
    | LayoutTooSmall                 // 'The ImageBoxes lenght is bigger than the layout size!' (src/index.ts:203)
    | ToolFailed(message: string)    // the error an external tool reports to its callback

  datatype Result<T> = Ok(value: T) | Err(error: Error)

  /** How a call of the library ends: its promise settles, or it throws before a promise exists. */
  datatype Outcome<T> = Resolved(value: T) | Rejected(error: Error) | Thrown(error: Error)

  /** What an external process reports on exit. */
  datatype ExecResult = Succeeded | Failed(message: string)

  /** The side effects an operation performs, in the order it starts them. */
  datatype Call =
    | ToFile(path: string)                 // a dataset is serialised to a scratch path
    | Dcmtk(program: string, args: string)
    | Imagick(program: string, args: string)
    | Sweep                                // clearTemporaryFiles runs

  datatype Run<T> = Run(outcome: Outcome<T>, calls: seq<Call>)

  predicate NoExec(calls: seq<Call>) {
    forall i :: 0 <= i < |calls| ==> !calls[i].Dcmtk? && !calls[i].Imagick?
  }

  predicate NoImagick(calls: seq<Call>) {
    forall i :: 0 <= i < |calls| ==> !calls[i].Imagick?
  }
}
