/** The newer build's command-line errors. Each error carries the process exit code, a flag
    saying whether the program should stop, its message and, depending on its kind, the
    values it was built from. The fields are set once, so an error is a value. */
module DistErrors {
  import opened JsValues
  import opened DistCommand
  import opened DistValidationError

  /** What each kind of error keeps beside its message. An out-of-sync error keeps
      nothing: its commands survive only in the message. */
  datatype Kind =
    | General
    | MissingParameter(paramName: string, flag: string, envVar: string)
    | OutOfSync
    | InvalidSchema(validationErrors: seq<ValidationError>)
    | DisallowedCommand(command: Command)

  datatype CliError = CliError(exitCode: int, shouldExit: bool, message: string, kind: Kind)

  const OutOfSyncFront := "Parse is out of sync with schema."
  const OutOfSyncRequired := " These changes are required:"
  const OutOfSyncHeading := OutOfSyncFront + OutOfSyncRequired
  const DisallowedHeading := "Schema would cause disallowed command: "

  /** `diff.map(prettyPrintCommand)` */
  function PrettyDiff(diff: seq<Command>): (r: seq<string>)
    ensures |r| == |diff|
  {
    seq(|diff|, i requires 0 <= i < |diff| => PrettyPrint(diff[i]))
  }

  /** `validationErrors.map(prettyPrintValidationError)` */
  function PrettyErrors(errors: seq<ValidationError>): (r: seq<string>)
    ensures r == errors
  {
    seq(|errors|, i requires 0 <= i < |errors| => PrettyPrintValidationError(errors[i]))
  }

  /** `new CliError(exitCode, shouldExit, message)`: an error of no particular kind. */
  function NewCliError(exitCode: int, shouldExit: bool, message: string): (e: CliError)
    ensures e.exitCode == exitCode && e.shouldExit == shouldExit && e.message == message && e.kind.General?
  {
    CliError(exitCode, shouldExit, message, General)
  }

  /** `new MissingParameterError(paramName, flag, envVar)` */
  function MissingParameterError(paramName: string, flag: string, envVar: string): (e: CliError)
    ensures e.exitCode == 1 && e.shouldExit
  {
    CliError(1, true, paramName + " must be passed via " + flag + " or " + envVar,
             MissingParameter(paramName, flag, envVar))
  }

  /** `new OutOfSyncError(diff)`: a heading line, then one line per required command. */
  function OutOfSyncError(diff: seq<Command>): (e: CliError)
    ensures e.exitCode == 1 && e.shouldExit && e.kind.OutOfSync?
  {
    CliError(1, true, OutOfSyncHeading + "\n" + Join(PrettyDiff(diff), "\n"), OutOfSync)
  }

  /** `new InvalidSchemaError(validationErrors)`: one line per validation error. */
  function InvalidSchemaError(validationErrors: seq<ValidationError>): (e: CliError)
    ensures e.exitCode == 1 && e.shouldExit
  {
    CliError(1, true, Join(PrettyErrors(validationErrors), "\n"), InvalidSchema(validationErrors))
  }

  /** `new DisallowedCommandError(command)`: the refused command, printed in quotes. */
  function DisallowedCommandError(command: Command): (e: CliError)
    ensures e.exitCode == 1 && e.shouldExit
  {
    CliError(1, true, DisallowedHeading + "\"" + PrettyPrint(command) + "\"", DisallowedCommand(command))
  }

  // ---------------------------------------------------------------------------
  // What the messages say

  /** A missing-parameter error keeps the three names and its message opens with the
      parameter's name and ends with the environment variable's. */
  lemma MissingParameterNames(paramName: string, flag: string, envVar: string)
    ensures MissingParameterError(paramName, flag, envVar).kind == MissingParameter(paramName, flag, envVar)
    ensures StartsWith(MissingParameterError(paramName, flag, envVar).message, paramName + " must be passed via ")
    ensures var m := MissingParameterError(paramName, flag, envVar).message;
            |envVar| <= |m| && m[|m| - |envVar|..] == envVar
  {
    var m := MissingParameterError(paramName, flag, envVar).message;
    var head := paramName + " must be passed via ";
    assert m == head + (flag + " or " + envVar);
    assert m[..|head|] == head;
    var front := head + flag + " or ";
    assert m == front + envVar;
    assert m[|front|..] == envVar;
  }

  /** Split into lines, an out-of-sync message gives the heading and then each required
      command as printed, one per line (an empty diff leaves a single empty line), when no
      printed command spans several lines. */
  lemma OutOfSyncLines(diff: seq<Command>)
    requires forall c | c in diff :: '\n' !in PrettyPrint(c)
    ensures Split(OutOfSyncError(diff).message, '\n')
            == [OutOfSyncHeading] + (if diff == [] then [""] else PrettyDiff(diff))
  {
    var lines := PrettyDiff(diff);
    PrettyDiffSingleLines(diff);
    HeadingSingleLine();
    HeadedSplit(OutOfSyncHeading, lines);
    assert OutOfSyncError(diff).message == OutOfSyncHeading + "\n" + Join(lines, "\n");
  }

  /** The out-of-sync heading is one line. */
  lemma HeadingSingleLine()
    ensures '\n' !in OutOfSyncHeading
  {
    assert '\n' !in OutOfSyncFront && '\n' !in OutOfSyncRequired;
  }

  /** No printed line of the diff spans several lines when no printed command does. */
  lemma PrettyDiffSingleLines(diff: seq<Command>)
    requires forall c | c in diff :: '\n' !in PrettyPrint(c)
    ensures forall p | p in PrettyDiff(diff) :: '\n' !in p
  {
    var lines := PrettyDiff(diff);
    forall p | p in lines ensures '\n' !in p {
      var i :| 0 <= i < |diff| && lines[i] == p;
      assert diff[i] in diff;
    }
  }

  /** A heading line followed by joined lines splits back into the heading and the lines. */
  lemma HeadedSplit(heading: string, lines: seq<string>)
    requires '\n' !in heading
    requires forall p | p in lines :: '\n' !in p
    ensures Split(heading + "\n" + Join(lines, "\n"), '\n') == [heading] + (if lines == [] then [""] else lines)
  {
    var all := [heading] + (if lines == [] then [""] else lines);
    if lines == [] {
      assert Join(all, "\n") == heading + "\n" + Join([""], "\n");
    } else {
      JoinCons(heading, lines, "\n");
    }
    SplitJoin(all, '\n');
  }

  /** Split into lines, an invalid-schema message gives back the validation errors, when
      there is at least one and none spans several lines; with none, the message is
      empty. The error also keeps the list itself. */
  lemma InvalidSchemaLines(validationErrors: seq<ValidationError>)
    requires forall e | e in validationErrors :: '\n' !in e
    ensures InvalidSchemaError(validationErrors).kind == InvalidSchema(validationErrors)
    ensures validationErrors == [] ==> InvalidSchemaError(validationErrors).message == ""
    ensures validationErrors != [] ==> Split(InvalidSchemaError(validationErrors).message, '\n') == validationErrors
  {
    if validationErrors != [] {
      SplitJoin(validationErrors, '\n');
    }
  }

  /** Two disallowed-command errors have the same message exactly when their commands
      print the same; the error keeps the command. */
  lemma DisallowedCommandNames(c: Command, d: Command)
    ensures DisallowedCommandError(c).kind == DisallowedCommand(c)
    ensures DisallowedCommandError(c).message == DisallowedCommandError(d).message
            <==> PrettyPrint(c) == PrettyPrint(d)
  {
    if DisallowedCommandError(c).message == DisallowedCommandError(d).message {
      var p := DisallowedHeading + "\"";
      assert p + PrettyPrint(c) + "\"" == p + PrettyPrint(d) + "\"";
      SuffixCancel(p + PrettyPrint(c), p + PrettyPrint(d), "\"");
      PrefixCancel(p, PrettyPrint(c), PrettyPrint(d));
    }
  }
}
