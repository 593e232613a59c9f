/** The command-execution helper, seen only through the values it takes and gives. */
module Helper {
  import opened Wrappers
  import opened Errors

  /** helper.CmdOptions: program name, arguments and working directory. */
  datatype CmdOptions = CmdOptions(Name: string, Args: seq<string>, Directory: string)

  /** The words of a parsed command line: the first word and the rest.
      The adapter reads word 0 without checking, so a parse always has one. */
  datatype CmdLine = CmdLine(Head: string, Tail: seq<string>)

  /** What Cmd.Output gives back: the captured text and an error, either possibly set. */
  datatype Output = Output(Text: string, Err: Option<Error>)
}
