/** The command-line entry point: the process argument list (program name
    first) is mapped to the text written to standard output and the exit
    status the process ends with. */
module Cli {
  import opened Text

  /** What one run of the entry point does. */
  datatype Outcome = Outcome(output: string, status: int)

  /** The product name that heads the version line. */
  const ProductName: string := "chuk-acp-agent"

  /** The lines of the help message; the message's literal opens with a
      line break, hence the empty first line. Lines longer than 32
      characters are written in pieces. */
  const HelpLines: seq<string> := [
    "",
    "chuk-acp-agent - " + "Opinionated agent kit " + "for building ACP agents",
    "",
    "Usage:",
    "    chuk-acp-agent " + "<command> [args...]",
    "",
    "Commands:",
    "    version             " + "Show version information",
    "    help                " + "Show this help message",
    "",
    "Examples:",
    "    chuk-acp-agent version",
    "    chuk-acp-agent help",
    "",
    "Documentation:",
    "    https://github.com/" + "chrishayuk/chuk-acp-agent",
    "",
    "Quick Start:",
    "    1. Install: " + "pip install chuk-acp-agent",
    "    2. Create agent.py " + "(see examples/)",
    "    3. Run: python agent.py",
    "    4. Configure in editor " + "(Zed, VS Code, etc.)",
    "",
    "See examples/ directory " + "for sample agents."
  ]

  /** Writing `s` with the default line terminator. */
  function Say(s: string): (out: string)
    ensures |out| == |s| + 1 && out[..|s|] == s && out[|s|] == '\n'
  {
    s + "\n"
  }

  /** The lines written by the help command: the message's lines and the
      empty line left by the terminator `print` adds after the message. */
  function HelpOutputLines(): seq<string> {
    HelpLines + [""]
  }

  /** No line of the help message begins with "Unknown command:": every line
      at least that long opens with a space or a lower-case letter. */
  lemma HelpLinesReportNoUnknownCommand()
    ensures forall k :: 0 <= k < |HelpLines| ==> !StartsWith(HelpLines[k], "Unknown command:")
  {
    forall k | 0 <= k < |HelpLines|
      ensures !StartsWith(HelpLines[k], "Unknown command:")
    {
      var line := HelpLines[k];
      if |line| >= 16 {
        assert line[..16][0] == line[0];
        // The message is constant data: splitting on k lets the verifier
        // read each literal line's first character.
        if k == 0 {} else if k == 1 {} else if k == 2 {} else if k == 3 {} else if k == 4 {} else if k == 5 {} else
        if k == 6 {} else if k == 7 {} else if k == 8 {} else if k == 9 {} else if k == 10 {} else if k == 11 {} else
        if k == 12 {} else if k == 13 {} else if k == 14 {} else if k == 15 {} else if k == 16 {} else if k == 17 {} else
        if k == 18 {} else if k == 19 {} else if k == 20 {} else if k == 21 {} else if k == 22 {} else {}
      }
    }
  }

  /** Four of the message's lines, and the two command names inside the
      command list. */
  lemma HelpLinesMentionCommands()
    ensures HelpLines[3] == "Usage:" && HelpLines[6] == "Commands:"
    ensures Contains(HelpLines[7], "version") && Contains(HelpLines[8], "help")
  {
    OccursAtEach(HelpLines[7], "version", 4);
    OccursAtEach(HelpLines[8], "help", 4);
  }

  /** The text written by the version command: the product name, one space,
      the version and the line terminator, so the version can be read back
      from it. */
  function PrintVersion(version: string): (out: string)
    ensures |out| == |ProductName| + |version| + 2
    ensures StartsWith(out, ProductName + " ") && EndsWith(out, "\n")
    ensures out[|ProductName| + 1..|out| - 1] == version
    ensures Contains(out, ProductName)
    ensures version != "" ==> |out| > |ProductName| + 2
  {
    var line := ProductName + " " + version;
    assert (line + "\n")[..|ProductName| + 1] == ProductName + " ";
    assert (line + "\n")[|ProductName| + 1..|line|] == version;
    ContainsLeft(ProductName, " ");
    ContainsLeftOf(ProductName + " ", version, ProductName);
    ContainsLeftOf(line, "\n", ProductName);
    Say(line)
  }

  /** The text written by the help command; it has no parameters. It is the
      message's lines and the empty line left by the terminator `print` adds;
      it names the usage line, the command list and both commands, and none
      of its lines begins with "Unknown command:". */
  function PrintHelp(): (out: string)
    ensures out == Unlines(HelpOutputLines())
    ensures forall k :: 0 <= k < |HelpOutputLines()| ==>
      !StartsWith(HelpOutputLines()[k], "Unknown command:")
    ensures Contains(out, "Usage:") && Contains(out, "Commands:")
    ensures Contains(out, "version") && Contains(out, "help")
  {
    var body := Unlines(HelpLines);
    UnlinesSnoc(HelpLines, "");
    HelpLinesReportNoUnknownCommand();
    assert !StartsWith("", "Unknown command:");
    HelpLinesMentionCommands();
    UnlinesContainsLine(HelpLines, 3);
    ContainsLeftOf(body, "\n", HelpLines[3]);
    UnlinesContainsLine(HelpLines, 6);
    ContainsLeftOf(body, "\n", HelpLines[6]);
    UnlinesContainsLine(HelpLines, 7);
    ContainsLeftOf(body, "\n", HelpLines[7]);
    ContainsTransitive(body + "\n", HelpLines[7], "version");
    UnlinesContainsLine(HelpLines, 8);
    ContainsLeftOf(body, "\n", HelpLines[8]);
    ContainsTransitive(body + "\n", HelpLines[8], "help");
    Say(body)
  }

  /** The entry point: only the first argument after the program name is
      looked at, matched exactly against "version" and "help". */
  function Dispatch(argv: seq<string>, version: string): (r: Outcome)
    ensures r.status == 0 || r.status == 1
    ensures r.status == 0 <==> |argv| >= 2 && (argv[1] == "version" || argv[1] == "help")
    ensures r.status == 1 ==> EndsWith(r.output, PrintHelp())
  {
    if |argv| < 2 then
      Outcome(PrintHelp(), 1)
    else
      var command := argv[1];
      if command == "version" then
        Outcome(PrintVersion(version), 0)
      else if command == "help" then
        Outcome(PrintHelp(), 0)
      else
        Outcome(Say("Unknown command: " + command) + PrintHelp(), 1)
  }
}

/** What the entry point promises, stated over all argument lists. */
module CliProperties {
  import opened Text
  import opened Cli
  import Package

  /** The released package's version line names the product and carries a
      version number after it. */
  lemma PackageVersionOutput()
    ensures PrintVersion(Package.Version) == "chuk-acp-agent 0.1.0\n"
    ensures Contains(PrintVersion(Package.Version), ProductName)
    ensures |PrintVersion(Package.Version)| > |ProductName| + 2
  {
  }

  /** With no argument after the program name the help text alone is written
      and the status is 1; no line of it reports an unknown command. */
  lemma NoCommandPrintsHelp(argv: seq<string>, version: string)
    requires |argv| < 2
    ensures Dispatch(argv, version).status == 1
    ensures Dispatch(argv, version).output == PrintHelp()
    ensures Dispatch(argv, version).output == Unlines(HelpOutputLines())
    ensures forall k :: 0 <= k < |HelpOutputLines()| ==>
      !StartsWith(HelpOutputLines()[k], "Unknown command:")
    ensures Contains(Dispatch(argv, version).output, "Usage:")
  {
  }

  /** The command "version" writes the version line and succeeds. */
  lemma VersionCommandPrintsVersion(argv: seq<string>, version: string)
    requires |argv| >= 2 && argv[1] == "version"
    ensures Dispatch(argv, version) == Outcome(PrintVersion(version), 0)
    ensures Contains(Dispatch(argv, version).output, ProductName)
  {
  }

  /** The command "help" writes the help text and succeeds. */
  lemma HelpCommandPrintsHelp(argv: seq<string>, version: string)
    requires |argv| >= 2 && argv[1] == "help"
    ensures Dispatch(argv, version) == Outcome(PrintHelp(), 0)
    ensures Contains(Dispatch(argv, version).output, "Usage:")
    ensures Contains(Dispatch(argv, version).output, "Commands:")
  {
  }

  /** Any other first argument, compared exactly and with case, is reported
      on a line of its own ahead of the full help text, and the status is 1.
      The output is the no-argument output with that one line in front. */
  lemma UnknownCommandReported(argv: seq<string>, version: string)
    requires |argv| >= 2 && argv[1] != "version" && argv[1] != "help"
    ensures Dispatch(argv, version).status == 1
    ensures Dispatch(argv, version).output
      == Unlines(["Unknown command: " + argv[1]] + HelpOutputLines())
    ensures Dispatch(argv, version).output
      == "Unknown command: " + argv[1] + "\n" + Dispatch(argv[..1], version).output
    ensures Contains(Dispatch(argv, version).output, "Unknown command: " + argv[1])
    ensures Contains(Dispatch(argv, version).output, "Usage:")
  {
    var line := "Unknown command: " + argv[1];
    var out := Dispatch(argv, version).output;
    assert out == line + "\n" + PrintHelp();
    assert out == Unlines([line] + HelpOutputLines()) by {
      UnlinesCons(line, HelpOutputLines());
    }
    assert Contains(out, line) by {
      ContainsLeft(line, "\n");
      ContainsLeftOf(line + "\n", PrintHelp(), line);
    }
    assert Contains(out, "Usage:") by {
      ContainsRightOf(line + "\n", PrintHelp(), "Usage:");
    }
  }

  /** Only the first argument after the program name decides the outcome:
      the program name and any later arguments make no difference. */
  lemma OnlyFirstArgumentConsulted(a: seq<string>, b: seq<string>, version: string)
    requires (|a| < 2 && |b| < 2) || (|a| >= 2 && |b| >= 2 && a[1] == b[1])
    ensures Dispatch(a, version) == Dispatch(b, version)
  {
  }

  /** The exit statuses of the runs the test suite makes (no argument,
      "version", "help", "unknown"), with the program name first, and of
      three extra cases: matching is exact, so "VERSION" and the empty
      string are unknown commands, and extra arguments after "help" change
      nothing. */
  lemma ConcreteRunStatuses(version: string)
    ensures Dispatch(["chuk-acp-agent"], version).status == 1
    ensures Dispatch(["chuk-acp-agent", "version"], version).status == 0
    ensures Dispatch(["chuk-acp-agent", "help"], version).status == 0
    ensures Dispatch(["chuk-acp-agent", "help", "extra", "args"], version)
      == Dispatch(["chuk-acp-agent", "help"], version)
    ensures Dispatch(["chuk-acp-agent", "unknown"], version).status == 1
    ensures Dispatch(["chuk-acp-agent", "VERSION"], version).status == 1
    ensures Dispatch(["chuk-acp-agent", ""], version).status == 1
  {
  }

  /** What the test suite finds in the output of those runs. */
  lemma ConcreteRunOutputs(version: string)
    ensures Contains(Dispatch(["chuk-acp-agent"], version).output, "Usage:")
    ensures Contains(Dispatch(["chuk-acp-agent", "version"], version).output, ProductName)
    ensures Contains(Dispatch(["chuk-acp-agent", "help"], version).output, "Usage:")
    ensures Contains(Dispatch(["chuk-acp-agent", "help"], version).output, "Commands:")
    ensures Contains(Dispatch(["chuk-acp-agent", "unknown"], version).output,
                     "Unknown command: " + "unknown")
    ensures Contains(Dispatch(["chuk-acp-agent", "unknown"], version).output, "Usage:")
  {
    var name := "chuk-acp-agent";
    NoCommandPrintsHelp([name], version);
    VersionCommandPrintsVersion([name, "version"], version);
    HelpCommandPrintsHelp([name, "help"], version);
    assert "unknown"[0] != "version"[0] && "unknown"[0] != "help"[0];
    UnknownCommandReported([name, "unknown"], version);
  }
}
