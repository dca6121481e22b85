# Dockerfile linter: rule checks and report assembly

This project models the rule-check layer of a small Dockerfile linter, and proves
properties about it. A parsed Dockerfile is given as a base-image string and an
ordered sequence of instructions. Each instruction is a keyword such as `FROM`,
`USER` or `RUN`, plus its raw value text. Three fixed checks read this input:

- The base-image check emits a WARN finding when the image carries the `:latest`
  tag. It emits an INFO finding when the image contains neither `slim` nor `alpine`.
  The two rules fire independently, and the WARN finding always comes first.
- The non-root user check passes as soon as one `USER` instruction names anyone
  other than exactly `root`. Otherwise it emits a single FAIL finding.
- The optimized RUN check emits a single WARN finding when some `RUN` value lacks `&&`.

The orchestrator pairs each check's findings with the check's name. It drops the
pairs the ignore list names and concatenates the rest in the fixed order Base
Image, Non-Root User, Optimized RUN.

Modules:

- `Text` (`text.dfy`): substring containment, the meaning of Python's `in` on strings.
- `Model` (`model.dfy`): `Instruction`, `Severity` (a closed enumeration whose
  labels are the source's strings `"INFO"`, `"WARN"`, `"FAIL"`) and `Finding`.
- `Checks` (`checks.py`'s three functions, in `checks.dfy`): each check is a method
  that works as the source does. `CheckBaseImage` makes two conditional appends;
  the other two are loops that return early. Each method is proved equal to a
  specification function (`BaseImageIssues`, `NonRootUserIssues`,
  `OptimizedRunIssues`), and lemmas state what those functions promise.
- `Linter` (`main.py` lines 27-38, in `linter.dfy`): `CollectIssues` is the
  filter loop and `Lint` is the whole pass. `Issues` specifies the loop.
  `Flatten(KeptChecks(..))` is an independent reference definition, and lemmas
  relate the two.

The ignore list is an `Option<seq<string>>`. `None` stands for the argument
being absent. The source's guard `args.ignore and name in args.ignore` becomes
`Ignored`, so an absent list and an empty list both filter nothing.

The repository's test at tests/test_core.py:41-42 expects `"python:latest"` to
yield one finding. The code yields two: the WARN for the tag, then the INFO,
because the image is neither slim nor alpine. The model follows the code, and
`Checks.BaseImageLatestExample` states the two-finding result.

## Model

| member | source | states |
|---|---|---|
| Checks.AnyTagIn | dockerfile_linter/checks.py:10 | `any(tag in s for tag in tags)` holds exactly when some tag of the list is a substring of `s` |
| Checks.CheckBaseImage | dockerfile_linter/checks.py:1-16 | the accumulate-and-append method returns exactly `BaseImageIssues(baseImage)` |
| Checks.BaseImageRules | dockerfile_linter/checks.py:4-15 | the 'latest' finding is present iff `:latest` occurs in the image; the INFO finding, whose message names the image, is present iff neither `slim` nor `alpine` occurs; some finding has severity INFO under the same condition; no other finding is ever produced |
| Checks.BaseImageOrder | dockerfile_linter/checks.py:3-16 | at most two findings; with two, they are the WARN finding followed by the INFO finding |
| Checks.BaseImageSlimExample | tests/test_core.py:37-38 | `"python:3.9-slim"` yields no findings |
| Checks.BaseImagePinnedExample | tests/test_core.py:48-52 | `"python:3.9"` yields exactly the INFO finding for `"python:3.9"` |
| Checks.BaseImageLatestExample | dockerfile_linter/checks.py:3-16 | `"python:latest"` yields two findings, the 'latest' WARN then the INFO (the code, not the one-finding expectation of tests/test_core.py:41-42) |
| Checks.CheckNonRootUser | dockerfile_linter/checks.py:18-27 | returns `[]` iff some instruction has keyword exactly `USER` and a value other than exactly `root`; otherwise exactly the one FAIL finding |
| Checks.NonRootUserFirstMatchWins | dockerfile_linter/checks.py:20-22 | once a prefix holds a non-root USER, any later instructions, a `USER root` among them, leave the result `[]` |
| Checks.NonRootUserIgnoresOtherKeywords | dockerfile_linter/checks.py:21 | prepending and appending instructions whose keyword is not `USER` leaves the result unchanged |
| Checks.NonRootUserExamples | tests/test_core.py:57-75 | `[USER appuser]` passes; `[USER root]` and the empty list get the FAIL finding |
| Checks.CheckOptimizedRun | dockerfile_linter/checks.py:29-38 | returns exactly the one WARN finding iff some instruction has keyword `RUN` and a value without `&&`; otherwise `[]` |
| Checks.OptimizedRunIgnoresOtherKeywords | dockerfile_linter/checks.py:32 | prepending and appending instructions whose keyword is not `RUN` leaves the result unchanged |
| Checks.OptimizedRunChainedExample | tests/test_core.py:80-82 | a RUN chained with `&&` passes |
| Checks.OptimizedRunUnchainedExample | tests/test_core.py:85-90 | a single unchained RUN gets the WARN finding |
| Linter.CollectIssues | main.py:34-38 | the skip-or-extend loop returns `Issues(allChecks, ignore)` |
| Linter.Lint | main.py:27-38 | the report is the contributions of Base Image, Non-Root User and Optimized RUN, in that order, each empty when ignored and the check's own findings otherwise; with no ignore list (absent or empty) it is the three checks' findings concatenated; it has at most 4 findings |
| Linter.IssuesAreKeptChecksFlattened | main.py:34-38 | the report equals the concatenation, in order, of the findings of exactly the pairs whose names are not ignored |
| Linter.IssuesLength | main.py:34-38 | the report length is the sum of the lengths of the non-ignored checks' results |
| Linter.IssuesWithoutIgnoreList | main.py:36 | with the ignore list absent or empty, the report is every check's findings concatenated |
| Linter.IgnoredCheckContributesNothing | main.py:35-37 | replacing the findings of an ignored check by anything at all leaves the report unchanged |
| Linter.UnknownNameInert | main.py:36 | adding a name that matches no check to the ignore list leaves the report unchanged |
| Linter.IgnoreMonotone | main.py:35-38 | adding a name to the ignore list yields a subsequence of the report without it |

## Left out

- `parse_dockerfile` (dockerfile_linter/core.py) wraps an external Dockerfile parser and reads a file. The model takes its output as input: a base-image string and a sequence of instructions.
- `generate_report` (dockerfile_linter/report.py) only feeds findings to an external table-rendering library.
- Argument parsing (main.py:10-16), JSON printing (main.py:43-45) and the file-not-found and generic error messages (main.py:47-50) are I/O. Since the parser is not modelled, neither of these error paths can arise in the model.
- dockerfile_linter/__init__.py only re-exports names.
- The checks run on a finished parse and touch no shared state, so calling a check twice on the same input gives the same result by construction. No lemma states this.
