# cheat_guard in Dafny

A model of `leviso-cheat-guard`, a Rust crate of three assertion macros whose every
use documents what the check protects, how severe a bypass would be, the concrete
ways the check could be cheated ("cheat vectors") and what a user suffers if it is:

- `cheat_bail!` fails immediately; its error message is a fixed, bordered report
  (`CheatGuard.Report`, `CheatGuard.Bail`).
- `cheat_ensure!` succeeds when its condition holds and is otherwise exactly
  `cheat_bail!` with the same arguments (`CheatGuard.Ensure`).
- `cheat_check!` never fails: it prints a progress line to standard output, prints
  a diagnostic block framed by 60-`=` borders to standard error when the condition is false, and
  appends one `(name, CheckResult)` entry to the caller's step aggregator
  (`CheatGuard.Check`).
- `CheckResult` is `Pass(expected)` or `Fail(expected, actual)`, with `passed()`.

Files:

- `text.dfy` (module `Text`): the text primitives the templates use. These are
  `str::repeat` (`Repeat`), the decimal `Display` of the entry number (`Decimal`,
  with its parser `DecimalValue`), `join` (`Join`) with its inverse `split`
  (`Split`), `Emitted` (the text a stream receives from a sequence of
  `println!` calls) and `contains` (`Contains`, with the executable search
  `HasSubstring`).
- `cheat_guard.dfy` (module `CheatGuard`): the crate itself. The numbered cheat list
  is `CheatLines`/`FormatCheats`. The bail report is `Report`, and its line-by-line
  view is `ReportLines`. `Bail` and `Ensure` return a `Status` (`Ok` or
  `Err(message)`). `cheat_check!` is modelled as `Check`, a method over a
  `StepResult` aggregator and two `LineSink` output streams. `CheckResult` keeps
  its `Passed` predicate.

The formatted error message of the macros (`format!($($arg)*)`) is an input string
here. The report is a function, so equal inputs give byte-identical reports.

Two details of the templates:

- The bail report puts the label `USER CONSEQUENCE:` on a line of its own, with the
  consequence on the following line (src/lib.rs:98-99). Only the failed-check
  diagnostic prints `CONSEQUENCE: <text>` on one line (src/lib.rs:208).
- Severity is whatever `Display` expression the caller passes. The doc comment at
  src/lib.rs:53 lists "CRITICAL", "HIGH", "MEDIUM" and "LOW" as conventional values;
  the macros do not check them.

## Model

| member | source | states |
|---|---|---|
| `Text.Repeat` | src/lib.rs:103 | the border is exactly `n` copies of `=` |
| `Text.DecimalRoundTrip` | src/lib.rs:84 | the number printed before each cheat reads back as that number |
| `Text.DecimalInjective` | src/lib.rs:84 | two entries get the same printed number only if they have the same index |
| `Text.SplitJoin` | src/lib.rs:81-86 | joining single-line entries with newlines and splitting the text at newlines gives back the entries |
| `Text.JoinSplit` | src/lib.rs:86 | the other round trip: splitting any text at newlines and joining again gives that text |
| `Text.SplitEmitted` | src/lib.rs:201-209 | a sequence of single-line `eprintln!` payloads reads back one payload per line |
| `CheatGuard.FormatCheatsLines` | src/lib.rs:81-86 | when no cheat contains a newline, the formatted list has one line per cheat, in input order; line k is `"  " + (k+1) + ". " + cheats[k]` |
| `CheatGuard.FormatCheatsMentionsEach` | src/lib.rs:81-86 | for any cheat texts, every numbered entry occurs in the formatted list |
| `CheatGuard.EmittedCheatLines` | src/lib.rs:207 | for any non-empty cheat list, the text `eprintln!` prints for the formatted list is the numbered entries, each followed by a newline |
| `CheatGuard.ReportFramed` | src/lib.rs:90-109 | the report begins with a newline, the 70-`=` border and a newline, and ends with the same border and a newline |
| `CheatGuard.ReportAsLines` | src/lib.rs:91-102 | for any fields, the report is these lines in order, each followed by a newline: blank, border, header, border, blank, PROTECTS, SEVERITY, blank, `CHEAT VECTORS:`, the numbered cheats, blank, `USER CONSEQUENCE:`, the consequence, blank, `ERROR:`, the error message, border |
| `CheatGuard.ReportSplitsIntoLines` | src/lib.rs:91-102 | when the fields are single-line, splitting the report at newlines gives exactly those lines |
| `CheatGuard.ReportMentions` | src/lib.rs:91-108 | for any fields, the report contains `PROTECTS: p`, `SEVERITY: s`, every numbered cheat both with its indentation and as a bare `k. cheat` entry (the form the unit test at src/lib.rs:263-269 searches for), the consequence and the error message |
| `CheatGuard.Bail` | src/lib.rs:72-110 | bail is always an error, and its payload is the report of its five inputs |
| `CheatGuard.Ensure` | src/lib.rs:130-148 | ensure succeeds exactly when the condition holds; when it fails, the result is identical to bail with the same arguments |
| `CheatGuard.CheckResult.Passed` | src/lib.rs:222-231 | `passed()` is true exactly for `Pass` with its expectation; when it is false the result is `Fail` carrying both expectation and observation |
| `CheatGuard.CheckOutcome` | src/lib.rs:197-230 | the recorded result passes exactly when the condition holds, always carries `expected`, and a failure carries `actual` |
| `CheatGuard.FailureBlockAsLines` | src/lib.rs:201-209 | for any fields, the diagnostic stream receives, in order: blank, 60-`=` border, `CHEAT-GUARDED CHECK FAILED: name`, border, PROTECTS, SEVERITY, `CHEATS:`, the numbered cheats, `CONSEQUENCE: c`, border |
| `CheatGuard.FailureBlockSplitsIntoLines` | src/lib.rs:201-209 | when the fields are single-line, splitting the diagnostic text at newlines gives exactly those lines |
| `CheatGuard.FailureBlockMentions` | src/lib.rs:201-209 | for any fields, the diagnostic contains the check's name, PROTECTS, SEVERITY, every numbered cheat and the consequence |
| `CheatGuard.ProgressLine` | src/lib.rs:195 | the stdout line is `    checking: ` (14 characters), then the name verbatim, then ` (protects: `, the protected property verbatim and `)`, so its length is 27 plus the two fields; it is a single line exactly when both fields are |
| `CheatGuard.LineSink.WriteLine` | src/lib.rs:195 | a print appends exactly one payload to its stream |
| `CheatGuard.StepResult.AddCheck` | src/lib.rs:198 | `add_check` appends exactly one `(name, result)` entry and keeps the earlier ones |
| `CheatGuard.ReportFailure` | src/lib.rs:200-209 | a failed check makes the nine `eprintln!` writes of the diagnostic, in order |
| `CheatGuard.Check` | src/lib.rs:174-217 | check appends exactly one entry under `name`, with `CheckOutcome` as the result, and leaves the old entries as an unchanged prefix. It prints exactly the progress line to standard output, and prints the diagnostic block to standard error only when the condition is false |
| `CheatGuard.PartitionStep` | src/lib.rs:158-171 | the documented partition check, whose condition is `output.contains("vda1")` (computed by `Text.HasSubstring`), records one result named `Partition table created`; it passes exactly when the sfdisk output contains `vda1`, and a failure carries `sfdisk output: <output>` as `actual`; a diagnostic is printed exactly when the output does not contain `vda1` |

## Left out

- The re-exported proc-macro attributes `cheat_aware`, `cheat_canary` and `cheat_reviewed` (src/lib.rs:44) belong to another crate and add no behaviour here.
- `anyhow` and `format!`. The error message is the caller's already formatted string, the fields are taken as their `Display` text, and a failure is a plain `Err(message)` value. The early `return` that `bail!` performs belongs to the caller's function.
- Real console I/O. Standard output and standard error are `LineSink` objects that record one entry per `println!`/`eprintln!` payload. `Check` requires them to be two distinct objects, as the process's two streams are. Interleaving with other writers is not modelled.
- The aggregator is modelled only as the ordered list of entries that `add_check` receives. It is external to the crate, and its own behaviour is not part of this model.
- The cheat list a passing `cheat_check!` formats (src/lib.rs:187-192) is never printed. The model formats it on every call; nothing observable depends on it when the check passes.
- Macro arguments are modelled as pure values evaluated once. The macros expand their arguments in place, so an argument with side effects would run as often as it appears, and in the expansion's order. `cheat_check!` evaluates `$name` at src/lib.rs:195 and 198 when the check passes, and at 195, 202 and 211 when it fails. It evaluates `$protects` at 195, and again at 204 on failure. It evaluates `$cond` only after the progress line is printed (197), and `$actual` only on failure (213). `cheat_bail!` formats the error message (88) before it evaluates the metadata expressions (104-107). None of this multiplicity or order is captured.
- Macro hygiene, the non-empty cheat list enforced by the macro patterns (stated here as `requires |cheats| > 0`), and the `Debug`/`Clone` derives of `CheckResult`.
- Entry numbers use `usize` in the crate. A literal list of macro arguments cannot make them overflow, so the model uses unbounded naturals.
- FormatCheatsLines: stated only when no cheat contains a newline, because such a cheat spans several lines of the list. `FormatCheatsMentionsEach` covers every input.
- ReportSplitsIntoLines: stated only for single-line fields, because a field with an embedded newline spans several lines. `ReportAsLines` and `ReportMentions` cover every input.
- FailureBlockSplitsIntoLines: stated only for single-line fields, for the same reason. `FailureBlockAsLines` and `FailureBlockMentions` cover every input.
