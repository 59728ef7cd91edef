# mpiscan in Dafny

mpiscan compiles one MPI program against every version of several MPI
implementations that the Spack package manager offers, runs it, and reports
what each version printed, as JSON or as a Markdown report. This project
models the decision and rendering logic of `lib/mpiscan/mpiscan.py` and
proves properties about it:

- `run_with_spack_load`: the command line written into the shell script, and
  how what happened (load failure, timeout, exit status) maps to
  `(out, ret)` (module `Runner`, `runner.dfy`);
- `Implementation`: the version list (`_list_versions`), which versions become
  usable (`_deploy_all`), and the record collected per version
  (`compile_and_run`) (module `Implementations`, `implementation.dfy`);
- `Output`: the normalisation of a result set (`_unfold`), the bullet list of
  an object (`_md_unfold_to_list`), the Markdown report (`_md`) and `render`
  (module `Reports`, `output.dfy`).

The records and result sets are in `results.dfy` (module `Results`). Python
string order, `join`/`split` and string concatenation over a list are in
`strings.dfy` (module `Strings`). Small generic datatypes and sequence facts
are in `common.dfy` (module `Common`).

Every call to the outside world is an oracle passed in as a parameter:

- `PackageManager` holds the answers of `spack spec`, `spack info` (already
  reduced to the extracted version strings), `spack find`, `spack install`
  and `spack load --sh`;
- `Shell` gives the outcome of `sh` on a script text and a timeout;
- `Parser` plays `json.loads`;
- the `dumps` argument of `Render` plays `json.dumps`;
- the `tempExe` argument of `CompileAndRun` gives the temporary executable
  names.

Python's `Implementation.__init__` both sets fields and raises when the
package or its versions are missing. Here the field set-up is the
constructor, and the rest is the method `Resolve`, which returns
`Fail(NoSuchPackage(name))` or `Fail(NoVersions(name))` where the source
raises.

Where the code's behaviour is easy to mistake, the model follows the code:

- Versions are sorted as strings (code point by code point, a proper prefix
  first), not as numeric tuples: `"10.1"` comes before `"9.0.1"`
  (`Implementations.ListVersionsStringOrder`).
- `_unfold` drops falsy outputs *before* parsing. A non-empty text such as
  `"{}"` that parses to an empty object therefore survives as an empty
  dictionary, so not every record left after `_unfold` has a truthy output
  (`Reports.EmptyObjectSurvives`). The same holds in the source for the
  texts `"0"`, `"[]"`, `"false"` and `"\"\""`, which pass the filter and then
  become falsy values, and the text `"null"` becomes None. In the model, whose
  parser yields only objects, no record is left without an output
  (`Reports.Unfolded`, `Reports.Output.Unfold`); in the source that holds only
  when no kept text parses to `null`.

## Model

| member | source | states |
|---|---|---|
| Strings.LessIffFirstDifference | lib/mpiscan/mpiscan.py:64 | the string order `sorted` uses: `a < b` exactly when `a` is a proper prefix of `b` or, at the first position where they differ, `a` has the smaller character |
| Strings.LessIrreflexive | lib/mpiscan/mpiscan.py:64 | no string is below itself |
| Strings.LessTransitive | lib/mpiscan/mpiscan.py:64 | the string order is transitive |
| Strings.LessTrichotomous | lib/mpiscan/mpiscan.py:64 | of two different strings one is below the other |
| Strings.LessAsymmetric | lib/mpiscan/mpiscan.py:64 | two strings are never below each other |
| Strings.SplitJoin | lib/mpiscan/mpiscan.py:138 | splitting `"\n".join(parts)` at newlines gives back `parts` when no part holds a newline |
| Runner.QuoteEach | lib/mpiscan/mpiscan.py:23 | every argument is wrapped in double quotes, one result per argument, in order |
| Runner.CommandLineReadsBack | lib/mpiscan/mpiscan.py:23 | the command line (quoted arguments joined by single spaces) reads back as exactly the argument list, provided no argument holds a double quote |
| Runner.QuoteInsideArgument | lib/mpiscan/mpiscan.py:23 | an argument holding a double quote is not protected: the quote ends the word early and the line no longer reads back |
| Runner.ReadQuotedWord | lib/mpiscan/mpiscan.py:23 | one quoted word at the front of a line reads back, and reading goes on after the following space |
| Runner.RunWithSpackLoad | lib/mpiscan/mpiscan.py:12-39 | `(None, 1)` when `spack load` fails; `(None, -1)` on timeout; `(stdout, 0)` when the script exits with 0 and `(None, code)` otherwise; the output is present exactly when `ret` is 0, and `ret` is 0 exactly when the shell ran and exited with 0 |
| Implementations.Insert | lib/mpiscan/mpiscan.py:64 | adding a string to a strictly increasing list keeps it strictly increasing and adds exactly that element |
| Implementations.SortedSet | lib/mpiscan/mpiscan.py:64 | `sorted(list(set(xs)))`: strictly increasing, with exactly the elements of `xs` |
| Implementations.StrictlyIncreasingUnique | lib/mpiscan/mpiscan.py:64 | two strictly increasing lists with the same elements are equal, so the set's enumeration order never shows |
| Implementations.ListVersions | lib/mpiscan/mpiscan.py:58-64 | fails, with `NoVersions(name)`, exactly when no version was extracted; otherwise strictly increasing in string order, without duplicates, with exactly the extracted versions as elements |
| Implementations.ListVersionsCanonical | lib/mpiscan/mpiscan.py:64 | the result is the unique strictly increasing list of the extracted versions |
| Implementations.ListVersionsStringOrder | lib/mpiscan/mpiscan.py:64 | `["9.0.1", "10.1", "9.0.1"]` gives `["10.1", "9.0.1"]`: string order, duplicates gone |
| Implementations.SelectedMembership | lib/mpiscan/mpiscan.py:66-81 | a version is used exactly when it is listed and `spack find` succeeds for it, or `find` fails, building is allowed and `spack install` returns 0 |
| Implementations.SkippedWithoutInstall | lib/mpiscan/mpiscan.py:70-78 | with building off, a version that is not found is never used |
| Implementations.SelectedIsSubsequence | lib/mpiscan/mpiscan.py:66-81 | the used versions keep the order of the version list (a subsequence of it) |
| Implementations.SelectedIncreasing | lib/mpiscan/mpiscan.py:66-81 | the used versions of a strictly increasing list are strictly increasing |
| Implementations.Attempt | lib/mpiscan/mpiscan.py:86-101 | one record per version with that version; a failed compilation gives `{out: None, ret: compile status}`; otherwise `out` and `ret` come from the run; `out` is None exactly when `ret` is non-zero, and is never an object |
| Implementations.ExecutedIffCompiled | lib/mpiscan/mpiscan.py:91-97 | the executable is run exactly when the compilation returned 0; a non-zero `ret` comes with a falsy `out` |
| Implementations.Implementation.constructor | lib/mpiscan/mpiscan.py:107-110 | stores the name and the build flag, with no version in use yet |
| Implementations.Implementation.Resolve | lib/mpiscan/mpiscan.py:49-55 | `NoSuchPackage(name)` and nothing changed when `spack spec` fails; otherwise what `DeployAll` does |
| Implementations.Implementation.DeployAll | lib/mpiscan/mpiscan.py:66-81 | with no version listed, `NoVersions(name)` and nothing changed; otherwise appends to `runningVersions`, in order, exactly the listed versions that are found or get built |
| Implementations.Implementation.CompileAndRun | lib/mpiscan/mpiscan.py:84-102 | exactly one record per used version, in order, each the `Attempt` for it; the runner calls made per version are the compilation and, only after it returned 0, the run |
| Reports.KeptFacts | lib/mpiscan/mpiscan.py:126 | the filter keeps, in order, exactly the records whose `out` is truthy (how many copies: `KeptCounts`) |
| Reports.KeptCounts | lib/mpiscan/mpiscan.py:126 | each record occurs in the kept list as often as in the input when its `out` is truthy, and not at all otherwise |
| Reports.Normalise | lib/mpiscan/mpiscan.py:127-134 | `version` and `ret` never change; an object is left alone; a text becomes the parsed object when it parses and stays the same text when it does not |
| Reports.UnfoldRecords | lib/mpiscan/mpiscan.py:123-134 | after `_unfold` no record of a list is without output |
| Reports.Unfolded | lib/mpiscan/mpiscan.py:123-134 | the same implementation keys in the same order, and no record anywhere without output |
| Reports.UnfoldRetained | lib/mpiscan/mpiscan.py:126-134 | the records left come, in order, from exactly the records with a truthy `out`, each as many times as in the input, each normalised, with its `version` and `ret` |
| Reports.EmptyObjectSurvives | lib/mpiscan/mpiscan.py:126-132 | a text `"{}"` passes the filter and is left as an empty, falsy object |
| Reports.NormaliseTwice | lib/mpiscan/mpiscan.py:127-134 | normalising a record twice is the same as once |
| Reports.UnfoldIdempotent | lib/mpiscan/mpiscan.py:123-134 | normalising an already normalised list (a report reloaded with `-j`) changes nothing, provided no kept text parsed to an empty object |
| Reports.LinesMembership | lib/mpiscan/mpiscan.py:137-138 | a line is in the list exactly when it is the `* k = v` line of a field whose key is not `"_"` |
| Reports.VisibleFacts | lib/mpiscan/mpiscan.py:137 | the fields kept are exactly those whose key is not `"_"` |
| Reports.SentinelIgnored | lib/mpiscan/mpiscan.py:137 | a trailing `"_"` field adds nothing to the list |
| Reports.BulletListLines | lib/mpiscan/mpiscan.py:136-138 | split at newlines, the list is exactly the `* k = v` lines, in order, when no key or value holds a newline |
| Reports.LatencyExample | lib/mpiscan/mpiscan.py:136-138 | `{"latency_ms": 12, "_": "internal"}` gives `* latency_ms = 12` |
| Reports.MarkdownFront | lib/mpiscan/mpiscan.py:140-150 | the report is the first implementation's `# name` heading and sections, then the report of the rest |
| Reports.MarkdownAppend | lib/mpiscan/mpiscan.py:140-150 | the report of two result sets in sequence is the two reports in sequence |
| Reports.HeadingsOccur | lib/mpiscan/mpiscan.py:143-145 | every implementation's `# name` heading and every record's `## version` heading occur in the report |
| Reports.OneRecordReport | lib/mpiscan/mpiscan.py:140-150 | the report of one implementation with one record is its heading, the record's heading and its body |
| Reports.ReloadExample | lib/mpiscan/mpiscan.py:140-150 | `{"openmpi": [{"version": "4.1", "out": "{\"x\":1}", "ret": 0}]}` renders as `# openmpi`, `## 4.1` and `* x = 1` |
| Reports.Output.constructor | lib/mpiscan/mpiscan.py:117-121 | stores the format and the normalised result set; nothing written yet |
| Reports.Output.Unfold | lib/mpiscan/mpiscan.py:123-134 | replaces the result set by its normalised form, in which no record is without output |
| Reports.Output.NormaliseEntries | lib/mpiscan/mpiscan.py:127-134 | the inner loop leaves each record normalised, in place |
| Reports.Output.Md | lib/mpiscan/mpiscan.py:140-150 | the text the nested loops accumulate is the report of the result set |
| Reports.Output.MdSections | lib/mpiscan/mpiscan.py:144-149 | the inner loop's text is the sections of the records: `## version`, then a fenced block for a text or the bullet list and a blank line for an object |
| Reports.Output.Render | lib/mpiscan/mpiscan.py:153-160 | appends the JSON dump for `json`, the Markdown report for `md`, and nothing for any other format |

## Left out

- The `subprocess` plumbing (`spack`, `sh`, `mpicc`, output to `/dev/null`) is replaced by the oracles above; `run_silent` (`spack spec`, `spack find`) and `subprocess.call` (`spack install`) are the `spec`, `find` and `install` answers of `PackageManager`.
- The regular expression that finds versions in `spack info` output: `PackageManager.info` returns the extracted strings.
- `Implementations.ListVersions`: the exception `check_output` raises when `spack info` itself fails is not modelled; the oracle always answers.
- `Runner.RunWithSpackLoad`: the timeout is handed to the shell oracle without meaning, and UTF-8 decoding is not modelled. An empty captured output, which the source leaves as an empty byte string, is the empty text here; both are falsy and are dropped by `_unfold`.
- `Runner.CommandLineReadsBack`: double quotes only group; expansion of `$`, backquotes and backslashes inside them by `sh` is not modelled.
- `json.loads` and `json.dumps` are oracles. The parser yields the key/value pairs of a JSON object. In the source a text that parses to some other JSON value replaces the text with that value: a JSON string becomes the string (`"\"abc\""` becomes `abc`, which `_md` renders in a fenced block without the quotes), and a number, boolean, list or `null` becomes a value on which `_md` fails, since it is neither a string nor a dictionary. `"0"`, `"[]"`, `"false"` and `"\"\""` turn into falsy values after the filter has run, and `"null"` into None. Here the parser yields no such values: every such text counts as unparsable and stays the text it was.
- `Reports.Unfolded`: that no record is left without an output rests on the parser yielding only objects; in the source a kept text `"null"` becomes None.
- `Reports.Output.Unfold`: the result set is a value. The in-place update of the entry dictionaries, which the caller's dictionary shares, is not modelled.
- Python dictionaries are lists of key/value pairs in insertion order; duplicate implementation names are a matter of `cli_entry`.
- Temporary files: their creation is the `tempExe` parameter; writing the script file and unlinking files (which is skipped after a failed compilation) are not modelled.
- `rich` console printing, `argparse`, reading a previous JSON report and opening the output file in `cli_entry` are I/O and command-line glue. The output stream is the `written` field of `Output`.
