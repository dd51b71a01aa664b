/** The command a step becomes (internal/runner/runner.go). */
module ShellSteps {
  // A shell step compiles to its runner and the words -c and script. In a container they are run as they are; on the
  // host the words are joined to a line first, and the line is what the runner is given after another -c.

  import opened Config
  import Ast
  import opened Compile
  import opened ShellQuote

  /** Steps without words are not run at all. */
  function HostCommand(s: Step): seq<string>
    requires s.argv != []
  {
    if s.runner == "" then s.argv else [s.runner, "-c", JoinArgv(s.argv)]
  }

  function ContainerCommand(s: Step): seq<string> {
    if s.runner == "" then s.argv else [s.runner] + s.argv
  }

  /** A daemon in a container is started with the words alone. */
  function ContainerDaemonCommand(s: Step): seq<string> {
    s.argv
  }

  /** What the documentation says of a shell step: the script is run with the shell. */
  function Wanted(runner: string, script: string): seq<string> {
    [runner, "-c", script]
  }

  method CommandOnHost(s: Step) returns (cmd: seq<string>)
    requires s.argv != []
    ensures cmd == HostCommand(s)
  {
    if s.runner == "" {
      return s.argv;
    }
    var line := Join(s.argv);
    return [s.runner, "-c", line];
  }

  method CommandInContainer(s: Step) returns (cmd: seq<string>)
    ensures cmd == ContainerCommand(s)
  {
    cmd := s.argv;
    if s.runner != "" {
      cmd := [s.runner] + cmd;
    }
  }

  lemma {:induction false} OptionIsPlain()
    ensures !NeedsQuotes("-c") && Preserved("-c")
  {
    assert "-c" == ['-', 'c'];
  }

  /** The line a shell step becomes on the host: the option, and the script as one quoted word. */
  lemma {:induction false} JoinedStep(script: string)
    ensures JoinArgv(["-c", script]) == "-c " + QuoteForShell(script)
    ensures |JoinArgv(["-c", script])| > |script|
  {
    OptionIsPlain();
    assert ["-c", script][1..] == [script];
    assert "-c" + [' '] == "-c ";
    QuotedIsLonger(script);
  }

  lemma {:induction false} QuotedIsLonger(s: string)
    ensures |QuoteForShell(s)| >= |s|
  {
    EscapedIsLonger(s);
  }

  lemma {:induction false} EscapedIsLonger(s: string)
    ensures |EscapeSingleQuoted(s)| >= |s|
  {
    if s != [] {
      EscapedIsLonger(s[1..]);
    }
  }

  /** On the host the shell is never given the script, whatever the script is. */
  lemma {:induction false} HostNeverGetsScript(runner: string, script: string)
    requires runner != ""
    ensures HostCommand(StepOf(Ast.Shell(runner, script))) == [runner, "-c", "-c " + QuoteForShell(script)]
    ensures HostCommand(StepOf(Ast.Shell(runner, script))) != Wanted(runner, script)
  {
    JoinedStep(script);
  }

  lemma {:induction false} OptionComesFirst(rest: string)
    ensures Tokens("-c " + rest) == Front(Some("-c"), Tokens(rest))
  {
    OptionIsPlain();
    PlainReadsBack("-c", None, [' '] + rest);
    ScanBlank(' ', rest, Some("-c"));
    assert "-c" + ([' '] + rest) == "-c " + rest;
    GrowTwice(None, "-c", []);
  }

  /** What the shell reads in that line: its first word, which names the command to run, is -c; and the words are -c and
      the script, so that the script is at best an argument, if and only if the script triggers quoting or is free of
      special characters. */
  lemma {:induction false} HostRunsOption(runner: string, script: string)
    requires runner != ""
    ensures var line := HostCommand(StepOf(Ast.Shell(runner, script)))[2];
      && (Tokens(line).Some? ==> Tokens(line).value != [] && Tokens(line).value[0] == "-c")
      && (Tokens(line) == Some(["-c", script]) <==> Preserved(script))
  {
    JoinedStep(script);
    OptionComesFirst(QuoteForShell(script));
    OptionIsPlain();
    RoundTripExactly(["-c", script]);
    assert (forall e :: e in ["-c", script] ==> Preserved(e)) <==> Preserved(script);
  }

  /** A step is run alike on the host and in a container exactly when it is no shell step; in a container a shell
      step is what the documentation says, and as a daemon there it lacks its runner. */
  lemma {:induction false} AlikeExactly(s: Ast.Step)
    requires StepOf(s).argv != [] && (s.Shell? ==> s.runner != "")
    ensures HostCommand(StepOf(s)) == ContainerCommand(StepOf(s)) <==> !s.Shell?
    ensures s.Shell? ==> ContainerCommand(StepOf(s)) == Wanted(s.runner, s.script)
    ensures ContainerDaemonCommand(StepOf(s)) == ContainerCommand(StepOf(s)) <==> !s.Shell?
  {
    if s.Shell? {
      HostNeverGetsScript(s.runner, s.script);
    }
  }
}
