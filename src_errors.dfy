/** The older snapshot's command-line errors. They match the newer build's except that an
    out-of-sync error reports no commands at all, only a fixed advice to run the planner.
    The snapshot's own command module has no printer for the command union these errors
    refer to, so a refused command is printed by the newer build's printer. */
module SrcErrors {
  import opened JsValues
  import opened DistCommand
  import opened SrcValidationError

  /** What each kind of error keeps beside its message. */
  datatype Kind =
    | General
    | MissingParameter(paramName: string, flag: string, envVar: string)
    | OutOfSync
    | InvalidSchema(validationErrors: seq<ValidationError>)
    | DisallowedCommand(command: Command)

  datatype CliError = CliError(exitCode: int, shouldExit: bool, message: string, kind: Kind)

  const OutOfSyncFront := "Parse is out of sync with schema,"
  const OutOfSyncAdvice := " Run plan to see differences"
  const OutOfSyncMessage := OutOfSyncFront + OutOfSyncAdvice
  const DisallowedHeading := "Schema would cause disallowed command: "

  /** `validationErrors.map(prettyPrintValidationError)` */
  function PrettyErrors(errors: seq<ValidationError>): (r: seq<string>)
    ensures r == errors
  {
    seq(|errors|, i requires 0 <= i < |errors| => PrettyPrintValidationError(errors[i]))
  }

  /** `new CliError(exitCode, shouldExit, message)`: an error of no particular kind. */
  function NewCliError(exitCode: int, shouldExit: bool, message: string): (e: CliError)
    ensures e.exitCode == exitCode && e.shouldExit == shouldExit && e.message == message && e.kind.General?
  {
    CliError(exitCode, shouldExit, message, General)
  }

  /** `new MissingParameterError(paramName, flag, envVar)` */
  function MissingParameterError(paramName: string, flag: string, envVar: string): (e: CliError)
    ensures e.exitCode == 1 && e.shouldExit
  {
    CliError(1, true, paramName + " must be passed via " + flag + " or " + envVar,
             MissingParameter(paramName, flag, envVar))
  }

  /** `new OutOfSyncError()`: a single line that names no command. */
  function OutOfSyncError(): (e: CliError)
    ensures e.exitCode == 1 && e.shouldExit && e.kind.OutOfSync?
    ensures Split(e.message, '\n') == [e.message]
  {
    assert '\n' !in OutOfSyncFront && '\n' !in OutOfSyncAdvice;
    CliError(1, true, OutOfSyncMessage, OutOfSync)
  }

  /** `new InvalidSchemaError(validationErrors)`: one line per validation error. */
  function InvalidSchemaError(validationErrors: seq<ValidationError>): (e: CliError)
    ensures e.exitCode == 1 && e.shouldExit
  {
    CliError(1, true, Join(PrettyErrors(validationErrors), "\n"), InvalidSchema(validationErrors))
  }

  /** `new DisallowedCommandError(command)`: the refused command, printed in quotes. */
  function DisallowedCommandError(command: Command): (e: CliError)
    ensures e.exitCode == 1 && e.shouldExit
  {
    CliError(1, true, DisallowedHeading + "\"" + PrettyPrint(command) + "\"", DisallowedCommand(command))
  }

  // ---------------------------------------------------------------------------
  // What the messages say

  /** A missing-parameter error keeps the three names and its message opens with the
      parameter's name and ends with the environment variable's. */
  lemma MissingParameterNames(paramName: string, flag: string, envVar: string)
    ensures MissingParameterError(paramName, flag, envVar).kind == MissingParameter(paramName, flag, envVar)
    ensures StartsWith(MissingParameterError(paramName, flag, envVar).message, paramName + " must be passed via ")
    ensures var m := MissingParameterError(paramName, flag, envVar).message;
            |envVar| <= |m| && m[|m| - |envVar|..] == envVar
  {
    var m := MissingParameterError(paramName, flag, envVar).message;
    var head := paramName + " must be passed via ";
    assert m == head + (flag + " or " + envVar);
    assert m[..|head|] == head;
    var front := head + flag + " or ";
    assert m == front + envVar;
    assert m[|front|..] == envVar;
  }

  /** Split into lines, an invalid-schema message gives back the validation errors, when
      there is at least one and none spans several lines; with none, the message is
      empty. The error also keeps the list itself. */
  lemma InvalidSchemaLines(validationErrors: seq<ValidationError>)
    requires forall e | e in validationErrors :: '\n' !in e
    ensures InvalidSchemaError(validationErrors).kind == InvalidSchema(validationErrors)
    ensures validationErrors == [] ==> InvalidSchemaError(validationErrors).message == ""
    ensures validationErrors != [] ==> Split(InvalidSchemaError(validationErrors).message, '\n') == validationErrors
  {
    if validationErrors != [] {
      SplitJoin(validationErrors, '\n');
    }
  }

  /** Two disallowed-command errors have the same message exactly when their commands
      print the same; the error keeps the command. */
  lemma DisallowedCommandNames(c: Command, d: Command)
    ensures DisallowedCommandError(c).kind == DisallowedCommand(c)
    ensures DisallowedCommandError(c).message == DisallowedCommandError(d).message
            <==> PrettyPrint(c) == PrettyPrint(d)
  {
    if DisallowedCommandError(c).message == DisallowedCommandError(d).message {
      var p := DisallowedHeading + "\"";
      assert p + PrettyPrint(c) + "\"" == p + PrettyPrint(d) + "\"";
      SuffixCancel(p + PrettyPrint(c), p + PrettyPrint(d), "\"");
      PrefixCancel(p, PrettyPrint(c), PrettyPrint(d));
    }
  }
}
