/** Normalisation of the global flags of the cca command
    (pkg/cmdutil/flags.go). The methods update the flags in place. */
module CmdUtil {
  import opened Json
  import opened ApiResponse
  import OutputFormat

  /** The output format after normalisation: kept when registered, replaced
      by the default otherwise. */
  function NormalizedFormat(format: string, defaultFormat: string): (r: string)
    ensures OutputFormat.Known(format) ==> r == format
    ensures !OutputFormat.Known(format) ==> r == defaultFormat
  {
    if OutputFormat.Known(format) then format else defaultFormat
  }

  /** Normalising an already normalised format changes nothing. */
  lemma NormalizedFormatIdempotent(format: string, defaultFormat: string)
    ensures NormalizedFormat(NormalizedFormat(format, defaultFormat), defaultFormat) == NormalizedFormat(format, defaultFormat)
  {
  }

  class GlobalFlags {
    var apiURL: string
    var apiKey: string
    var colorOutput: bool
    var environmentID: string
    var logLevel: string
    var outputColor: bool
    var outputFormat: string

    constructor (apiURL: string, apiKey: string, colorOutput: bool, environmentID: string,
                 logLevel: string, outputColor: bool, outputFormat: string)
      ensures this.apiURL == apiURL && this.apiKey == apiKey && this.colorOutput == colorOutput
      ensures this.environmentID == environmentID && this.logLevel == logLevel
      ensures this.outputColor == outputColor && this.outputFormat == outputFormat
    {
      this.apiURL := apiURL;
      this.apiKey := apiKey;
      this.colorOutput := colorOutput;
      this.environmentID := environmentID;
      this.logLevel := logLevel;
      this.outputColor := outputColor;
      this.outputFormat := outputFormat;
    }

    /** `parseLogLevel`: its only effect is on the process-wide logger; it
        touches no flag and never fails. */
    method ParseLogLevel() returns (err: Option<Failure>)
      ensures err.None?
    {
      err := None;
    }

    /** `parseColorOutput`. `nocolor` is what reading the "nocolor" flag gave,
        `None` when it could not be read. */
    method ParseColorOutput(nocolor: Option<bool>) returns (err: Option<Failure>)
      modifies this`colorOutput
      ensures nocolor.Some? ==> colorOutput == !nocolor.value
      ensures nocolor.None? ==> colorOutput == old(colorOutput)
      ensures err.None?
    {
      if nocolor.Some? {
        colorOutput := !nocolor.value;
      }
      err := None;
    }

    /** `parseOutputFormat`, falling back to `defaultFormat` (the package's
        DefaultOutputFormat) when the format is not registered. */
    method ParseOutputFormat(defaultFormat: string) returns (err: Option<Failure>)
      modifies this`outputFormat
      ensures outputFormat == NormalizedFormat(old(outputFormat), defaultFormat)
      ensures err.None?
    {
      var known := OutputFormat.Has(outputFormat);
      if !known {
        outputFormat := defaultFormat;
      }
      err := None;
    }

    /** `Normalize`: log level, colour, then output format, stopping at the
        first error. None of them fails, so it always succeeds, and only the
        colour and the output format can change. */
    method Normalize(nocolor: Option<bool>, defaultFormat: string) returns (err: Option<Failure>)
      modifies this`colorOutput, this`outputFormat
      ensures err.None?
      ensures colorOutput == (if nocolor.Some? then !nocolor.value else old(colorOutput))
      ensures outputFormat == NormalizedFormat(old(outputFormat), defaultFormat)
    {
      err := ParseLogLevel();
      if err.Some? {
        return;
      }
      err := ParseColorOutput(nocolor);
      if err.Some? {
        return;
      }
      err := ParseOutputFormat(defaultFormat);
      if err.Some? {
        return;
      }
      err := None;
    }
  }
}
