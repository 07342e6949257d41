/** Numeric error codes reported by the vendor library and the error kinds the wrapper raises. */
module ErrorCodes {
  import opened Results

  /** Symbolic name of every error code the wrapper knows (`LucamError.CODES`), listed by code:
      the name of code `c` is `Names[c]`. Each entry of the source also carries a one-line
      description after the name; only the names are kept here. */
  const Names: seq<string> :=
    ["NoError", "NoSuchIndex", "SnapshotNotSupported", "InvalidPixelFormat", "SubsamplingZero",
     "Busy", "FailedToSetSubsampling", "FailedToSetStartPosition", "PixelFormatNotSupported", "InvalidFrameFormat"] +
    ["PreparationFailed", "CannotRun", "NoTriggerControl", "NoPin", "NotRunning",
     "TriggerFailed", "CannotSetupFrameFormat", "DirectShowInitError", "CameraNotFound", "Timeout"] +
    ["PropertyUnknown", "PropertyUnsupported", "PropertyAccessFailed", "LucustomNotFound", "PreviewNotRunning",
     "LutfNotLoaded", "DirectShowError", "NoMoreCallbacks", "UndeterminedFrameFormat", "InvalidParameter"] +
    ["NotEnoughResources", "NoSuchConversion", "ParameterNotWithinBoundaries", "BadFileIo", "GdiplusNotFound",
     "GdiplusError", "UnknownFormatType", "FailedCreateDisplay", "DpLibNotFound", "DpCmdNotSupported"] +
    ["DpCmdUnknown", "NotWhilePaused", "CaptureFailed", "DpError", "NoSuchFrameRate",
     "InvalidTarget", "FrameTooDark", "KsPropertySetNotFound", "Cancelled", "KsControlNotSupported"] +
    ["EventNotSupported", "NoPreview", "SetPositionFailed", "NoFrameRateList", "FrameRateInconsistent",
     "CameraNotConfiguredForCmd", "GraphNotReady", "CallbackSetupError", "InvalidTriggerMode", "NotFound"] +
    ["EepromTooSmall", "EepromWriteFailed", "UnknownFileType", "EventIdNotSupported", "EepromCorrupted",
     "SectionTooBig", "FrameTooBright", "NoCorrectionMatrix", "UnknownCameraModel", "ApiTooOld"] +
    ["SaturationZero", "AlreadyInitialised", "SameInputAndOutputFile", "FileConversionFailed", "FileAlreadyConverted",
     "PropertyPageNotSupported", "PropertyPageCreationFailed", "DirectShowFilterNotInstalled", "IndividualLutNotAvailable", "UnexpectedError"] +
    ["StreamingStopped", "MustBeInSwTriggerMode", "TargetFlaky", "AutoLensUninitialized", "LensNotInstalled",
     "UnknownError", "FocusNoFeedbackError", "LutfTooOld", "UnknownAviFormat", "UnknownAviType"] +
    ["InvalidAviConversion", "SeekFailed", "AviRunning", "CameraAlreadyOpened", "NoSubsampledHighRes",
     "OnlyOnMonochrome", "No8bppTo48bpp", "Lut8Obsolete", "FunctionNotSupported", "RetryLimitReached"]

  /** The code table as the wrapper holds it: a dictionary from code to text. */
  const Codes: map<int, string> := map code | 0 <= code < |Names| :: Names[code]

  /** The table is defined exactly on the codes 0 to 99. */
  lemma CodesDomain()
    ensures forall code :: code in Codes <==> 0 <= code < 100
  {
    assert |Names| == 100;
  }

  /** The text of a raised `LucamError` (`__str__`): the table entry for its code; any other
      code is a failed lookup, never a placeholder text. */
  function Describe(code: int): (text: Option<string>)
    ensures text.Some? <==> 0 <= code < 100
    ensures text.Some? ==> text.value == Codes[code]
  {
    CodesDomain();
    if code in Codes then Some(Codes[code]) else None
  }

  /** The first and last entries of the table, and the absence of a default text. */
  lemma KnownCodes()
    ensures Describe(0) == Some("NoError")
    ensures Describe(1) == Some("NoSuchIndex")
    ensures Describe(99) == Some("RetryLimitReached")
    ensures Describe(100).None? && Describe(-1).None?
  {
    assert |Names| == 100;
    assert Names[0] == "NoError";
    assert Names[1] == "NoSuchIndex";
    assert Names[99] == "RetryLimitReached";
  }

  /** What a wrapper call can raise. */
  datatype Error =
    | LucamError(code: int)          // a native call reported failure; the code is the camera's last error
    | AttributeError(name: string)   // a name looked up on the library or on an object is not there
    | ValueError(reason: string)     // a frame buffer cannot have the requested shape
}
