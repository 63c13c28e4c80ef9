/**
 * The command line of `main` (main.cpp): exactly seven arguments after the
 * program name, two of them integer flags.
 */
module Cli {
  import opened Wrappers

  /** The parsed command line. The chip padding (a double) is not kept. */
  datatype Options = Options(landmarksModel: string, dataSetDir: string, processedDir: string,
                             chipSize: int, showStages: bool, drawRect: bool)

  datatype CliError = UsageError

  /** The program name and the seven arguments. */
  const ArgCount: nat := 8

  /** An integer flag read as a boolean: 0 is false, and every other value, not only 1, is true. */
  function FlagOf(v: int): (b: bool)
    ensures b <==> v != 0
    ensures v == 1 ==> b
  {
    if v == 0 then false else true
  }

  /**
   * Parses `argv` (the program name first), with `toInt` standing for the
   * string-to-integer conversion. Any other argument count is a usage error.
   */
  function ParseArgs(argv: seq<string>, toInt: string -> int): (r: Result<Options, CliError>)
    ensures r.Failure? <==> |argv| != ArgCount
    ensures r.Success? ==>
      r.value.landmarksModel == argv[1] && r.value.dataSetDir == argv[2] &&
      r.value.processedDir == argv[3] && r.value.chipSize == toInt(argv[4])
    ensures r.Success? ==>
      (r.value.showStages <==> toInt(argv[6]) != 0) && (r.value.drawRect <==> toInt(argv[7]) != 0)
  {
    if |argv| != ArgCount then Failure(UsageError)
    else Success(Options(argv[1], argv[2], argv[3], toInt(argv[4]), FlagOf(toInt(argv[6])), FlagOf(toInt(argv[7]))))
  }

  /** The process exit code: -1 after a usage error, 0 after a completed run. */
  function ExitCode(r: Result<Options, CliError>): (code: int)
    ensures code == 0 <==> r.Success?
    ensures code == -1 <==> r.Failure?
  {
    match r
    case Success(_) => 0
    case Failure(_) => -1
  }
}
