# chuk-acp-agent command-line dispatcher

A Dafny model of the `chuk-acp-agent` command-line entry point. The process
argument list (program name first) is mapped to the text the process writes
to standard output and the status it exits with:

- no argument after the program name: the help text, status 1;
- `version`: the line `chuk-acp-agent <version>`, status 0;
- `help`: the help text, status 0;
- anything else `X` (matched exactly and with case, so `VERSION` and the
  empty string included): the line `Unknown command: X` and then the help
  text, status 1.

Only the first argument after the program name is looked at.

Files:

- `cli.dfy`: module `Cli` holds the entry point `Dispatch`, the version and
  help writers `PrintVersion` and `PrintHelp`, and the help message's lines.
  Module `CliProperties` holds the lemmas about them.
- `package.dfy`: module `Package` holds the package version `"0.1.0"`.
- `text.dfy`: module `Text` holds infix search, line joining and the facts
  about them that the properties rest on.

How the effects are modelled:

- `print(s)` becomes the text `s + "\n"` (`Cli.Say`).
- Output from several calls in one run is concatenated in order.
- `sys.exit(n)` becomes status `n`, and a normal return becomes status 0.
- The version is a parameter of `Dispatch`, so the lemmas hold for any
  version string; `Package.Version` is the declared one.
- The help message is the triple-quoted literal of `print_help`. It opens
  with a line break, so its first line is empty. `print` adds one more line
  break after it.
- The help text has no parameters, so it is the same on every call by
  construction.

The entry point reads `sys.argv[1]`, so the program name is the first token
of the argument list (`argv[0]`) and the command is the second. A run with
no arguments is an argument list of length one; an empty list is treated
the same way.

The help message's lines are the constant `Cli.HelpLines`, equal line for
line to the literal at src/chuk_acp_agent/cli.py:39-61.

## Model

| member | source | states |
|---|---|---|
| Cli.Say | src/chuk_acp_agent/cli.py:24 | writing a text with `print` adds exactly one line break after it and leaves the text unchanged before it |
| Cli.PrintVersion | src/chuk_acp_agent/cli.py:29-33 | the version output is the product name, one space, the version and a line break. Its length is the name's plus the version's plus 2, and the text between the space and the line break is the version, so the version can be read back. It contains the product name and is longer than the name plus the space and the line break whenever the version is non-empty |
| Cli.PrintHelp | src/chuk_acp_agent/cli.py:36-62 | the help output is the message's lines followed by the empty line that `print`'s terminator leaves. No line of it begins with `Unknown command:`, and it contains `Usage:`, `Commands:`, `version` and `help` |
| Cli.HelpLinesReportNoUnknownCommand | src/chuk_acp_agent/cli.py:39-61 | no line of the help message begins with `Unknown command:` |
| Cli.HelpLinesMentionCommands | src/chuk_acp_agent/cli.py:41-46 | the help message has the lines `Usage:` and `Commands:`. The command list's rows name `version` and `help` |
| Cli.Dispatch | src/chuk_acp_agent/cli.py:11-26 | the status is 0 or 1. It is 0 exactly when there is a first argument and it is `version` or `help`. Every status-1 output ends with the full help text |
| CliProperties.NoCommandPrintsHelp | src/chuk_acp_agent/cli.py:13-15 | with no first argument the output is exactly the help text and the status is 1. The output contains `Usage:`, and none of its lines begins with `Unknown command:` |
| CliProperties.VersionCommandPrintsVersion | src/chuk_acp_agent/cli.py:19-20 | first argument `version` gives the version line, status 0, and the output contains the product name |
| CliProperties.HelpCommandPrintsHelp | src/chuk_acp_agent/cli.py:21-22 | first argument `help` gives exactly the help text, status 0, containing `Usage:` and `Commands:` |
| CliProperties.UnknownCommandReported | src/chuk_acp_agent/cli.py:23-26 | any other first argument `X` gives status 1. The output is the line `Unknown command: X` followed by the help text's lines. It is the no-argument output with that one line in front, and it contains `Unknown command: X` and `Usage:` |
| CliProperties.OnlyFirstArgumentConsulted | src/chuk_acp_agent/cli.py:13-17 | two argument lists that agree on whether a first argument exists, and on its value, give the same output and status. The program name and later arguments do not matter |
| CliProperties.PackageVersionOutput | src/chuk_acp_agent/__init__.py:11 | with the declared version the output is `chuk-acp-agent 0.1.0` and a line break. It contains the product name and carries a version number after it |
| CliProperties.ConcreteRunStatuses | tests/test_cli.py:31-67 | the statuses of the four runs the test suite makes: 1 with no argument, 0 for `version` and `help`, 1 for `unknown`. Three extra cases: `help extra args` behaves exactly like `help`, and `VERSION` and the empty string are unknown commands |
| CliProperties.ConcreteRunOutputs | tests/test_cli.py:31-67 | what the test suite finds in those outputs: `Usage:` with no argument, the product name for `version`, `Usage:` and `Commands:` for `help`, and `Unknown command: unknown` and `Usage:` for `unknown` |

## Left out

- Writing to standard output, reading the process-wide `sys.argv`, and ending the process with `sys.exit`. The model returns the text and the status instead.
- The deferred import of `__version__` inside `print_version`. The version is a parameter.
- The re-exports of `Agent`, `Context`, `MCPConfig` and `MCPServerConfig` in `src/chuk_acp_agent/__init__.py`. The entry point never uses them, and their modules are not part of this model.
- The `if __name__ == "__main__"` guard, which only calls the entry point.
- The test suite's harness (output capture, patching `sys.argv`). Only its assertions are stated, in `CliProperties.ConcreteRunStatuses` and `CliProperties.ConcreteRunOutputs`.
- CliProperties.NoCommandPrintsHelp: says that no line of the no-argument output begins with `Unknown command:`. It does not say that the phrase appears nowhere inside a line.
- Cli.PrintHelp: likewise states only that no line of the help output begins with `Unknown command:`.
- CliProperties.PackageVersionOutput: the test compares the length after Python's `str.strip()`, which is not modelled. The lemma instead compares the full output with the name plus the space and the line break.
- Cli.Dispatch: arguments are modelled as strings of Unicode scalar values. Python decodes argument bytes that are not valid text with surrogate escapes, and `print` of such a string on a strict UTF-8 standard output raises an encoding error. The unknown-command line and the help text are then never written, and the error goes to standard error. Encoding failures of `print` are not modelled, so `Cli.Dispatch`'s promise that every status-1 output ends with the help text covers only arguments that are valid text.
