/** `run_with_spack_load`: run a command inside the environment that
    `spack load --sh <pkg>` sets up, and map what happened to `(out, ret)`.
    The package manager and the shell are oracles: the model sees only what
    they answer. */
module Runner {
  import opened Common
  import opened Strings

  /** The package manager as the program sees it: one answer per command it
      runs. */
  datatype PackageManager = PackageManager(
    spec: string -> int,             // exit status of `spack spec <name>`
    info: string -> seq<string>,     // the version strings found in `spack info <name>`
    find: string -> int,             // exit status of `spack find <name>@<version>`
    install: string -> int,          // exit status of `spack install <name>@<version>`
    load: string -> Option<string>)  // the script printed by `spack load --sh <pkg>`; None when it fails

  /** How `sh <script>` ended: it exited with a status and its standard
      output, or it ran past the timeout. */
  datatype ShellResult = Exited(code: int, stdout: string) | TimedOut

  /** The shell, given the script text and the timeout. */
  type Shell = (string, int) -> ShellResult

  /** The pair `(output, ret)` that `run_with_spack_load` returns. */
  datatype RunResult = RunResult(out: Option<string>, ret: int)

  /** One argument wrapped in double quotes. */
  function Quote(x: string): string
  {
    "\"" + x + "\""
  }

  function QuoteEach(cmd: seq<string>): (r: seq<string>)
    ensures |r| == |cmd|
    ensures forall i :: 0 <= i < |cmd| ==> r[i] == Quote(cmd[i])
  {
    if cmd == [] then [] else [Quote(cmd[0])] + QuoteEach(cmd[1..])
  }

  /** The command line written after the load script: every argument in
      double quotes, separated by single spaces. */
  function CommandLine(cmd: seq<string>): string
  {
    Join(" ", QuoteEach(cmd))
  }

  /** The whole script handed to `sh`. */
  function Script(loadScript: string, cmd: seq<string>): string
  {
    loadScript + "\n" + CommandLine(cmd)
  }

  /** Position of the first `c` in `s`, or `|s|` when there is none. */
  function IndexOf(s: string, c: char): (k: nat)
    ensures k <= |s|
    ensures k < |s| ==> s[k] == c
    ensures forall i :: 0 <= i < k ==> s[i] != c
  {
    if s == [] then 0 else if s[0] == c then 0 else 1 + IndexOf(s[1..], c)
  }

  /** Reads a command line back: double-quoted words separated by single
      spaces. None when the text is not of that shape. */
  function ReadWords(s: string): Option<seq<string>>
    decreases |s|
  {
    if s == [] then Some([])
    else if s[0] != '"' then None
    else
      var k := IndexOf(s[1..], '"');
      if k == |s| - 1 then None
      else
        var word, rest := s[1..k + 1], s[k + 2..];
        if rest == [] then Some([word])
        else if rest[0] != ' ' then None
        else match ReadWords(rest[1..])
          case None => None
          case Some(words) => Some([word] + words)
  }

  /** The arguments can be read back from the command line, provided none of
      them holds a double quote. */
  lemma {:induction false} CommandLineReadsBack(cmd: seq<string>)
    requires forall i :: 0 <= i < |cmd| ==> '"' !in cmd[i]
    ensures ReadWords(CommandLine(cmd)) == Some(cmd)
    decreases |cmd|
  {
    if cmd != [] {
      var x := cmd[0];
      assert QuoteEach(cmd)[0] == Quote(x);
      if |cmd| == 1 {
        assert CommandLine(cmd) == Quote(x) + "";
        ReadQuotedWord(x, "");
        assert cmd == [x];
      } else {
        var rest := CommandLine(cmd[1..]);
        assert QuoteEach(cmd[1..]) == QuoteEach(cmd)[1..];
        assert CommandLine(cmd) == Quote(x) + (" " + rest);
        CommandLineReadsBack(cmd[1..]);
        assert (" " + rest)[1..] == rest;
        ReadQuotedWord(x, " " + rest);
        assert [x] + cmd[1..] == cmd;
      }
    }
  }

  /** One quoted word at the front is read back, and reading goes on after
      the space that follows it. */
  lemma ReadQuotedWord(x: string, tail: string)
    requires '"' !in x
    ensures tail == "" ==> ReadWords(Quote(x) + tail) == Some([x])
    ensures tail != "" && tail[0] == ' ' && ReadWords(tail[1..]).Some? ==>
              ReadWords(Quote(x) + tail) == Some([x] + ReadWords(tail[1..]).value)
  {
    var s := Quote(x) + tail;
    assert s[1..] == x + "\"" + tail;
    assert IndexOf(s[1..], '"') == |x| by {
      assert (s[1..])[|x|] == '"';
      forall i | 0 <= i < |x| ensures (s[1..])[i] != '"' {
        assert (s[1..])[i] == x[i];
      }
    }
    assert s[1..|x| + 1] == x;
    assert s[|x| + 2..] == tail;
    assert s[0] == '"' && |x| != |s| - 1;
  }

  /** An argument that holds a double quote does not survive: the quote ends
      the word early. */
  lemma QuoteInsideArgument()
    ensures CommandLine(["a\"b"]) == "\"a\"b\""
    ensures ReadWords(CommandLine(["a\"b"])) == None
  {
    var s := CommandLine(["a\"b"]);
    assert s == "\"a\"b\"";
    assert IndexOf(s[1..], '"') == 1;
    assert s[1 + 2..] == "b\"";
  }

  /** What the shell was asked and answered, or None when loading the
      environment failed and the shell was never run. */
  function ShellRun(pm: PackageManager, sh: Shell, pkg: string, cmd: seq<string>, timeout: int): Option<ShellResult>
  {
    match pm.load(pkg)
    case None => None
    case Some(loadScript) => Some(sh(Script(loadScript, cmd), timeout))
  }

  /** `run_with_spack_load(pkg, cmd, timeout)`. */
  function RunWithSpackLoad(pm: PackageManager, sh: Shell, pkg: string, cmd: seq<string>, timeout: int): (r: RunResult)
    ensures ShellRun(pm, sh, pkg, cmd, timeout) == None ==> r == RunResult(None, 1)
    ensures ShellRun(pm, sh, pkg, cmd, timeout) == Some(TimedOut) ==> r == RunResult(None, -1)
    ensures forall code, stdout :: ShellRun(pm, sh, pkg, cmd, timeout) == Some(Exited(code, stdout)) ==>
              r == if code == 0 then RunResult(Some(stdout), 0) else RunResult(None, code)
    ensures r.out.Some? <==> r.ret == 0
    ensures r.ret == 0 <==> ShellRun(pm, sh, pkg, cmd, timeout).Some? &&
                            ShellRun(pm, sh, pkg, cmd, timeout).value.Exited? &&
                            ShellRun(pm, sh, pkg, cmd, timeout).value.code == 0
  {
    match pm.load(pkg)
    case None => RunResult(None, 1)
    case Some(loadScript) =>
      match sh(Script(loadScript, cmd), timeout)
      case TimedOut => RunResult(None, -1)
      case Exited(code, stdout) =>
        if code == 0 then RunResult(Some(stdout), 0) else RunResult(None, code)
  }
}
