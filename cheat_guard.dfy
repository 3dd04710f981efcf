/** The cheat-guard assertion facility: three ways of asserting a condition whose
    every use documents what it protects, how severe a bypass would be, the concrete
    ways the check could be cheated and what a user suffers if it is.

    - `Bail` always fails, with a bordered report as the error message.
    - `Ensure` succeeds when its condition holds and otherwise is exactly `Bail`.
    - `Check` never fails: it prints a progress line, prints a diagnostic block when
      the condition is false, and records a `CheckResult` in a step's aggregator.

    All three take the same metadata; the cheat list is non-empty because every
    macro pattern demands at least one cheat. */
module CheatGuard {
  import opened Text

  // ---------------------------------------------------------------------------
  // Results
  // ---------------------------------------------------------------------------

  /** What a fallible operation returns: success, or an error carrying its message. */
  datatype Status = Ok | Err(message: string)

  /** The outcome of one recorded check. */
  datatype CheckResult = Pass(expected: string) | Fail(expected: string, actual: string)
  {
    /** `passed()`: true for a pass, false for a failure, which then carries both strings. */
    predicate Passed(): (p: bool)
      ensures p <==> this == Pass(expected)
      ensures !p ==> this == Fail(expected, actual)
    {
      Pass?
    }
  }

  // ---------------------------------------------------------------------------
  // Numbered cheat list
  // ---------------------------------------------------------------------------

  /** Entry `index` (0-based) of the cheat list, numbered from 1. */
  function CheatLine(index: nat, cheat: string): string {
    "  " + Decimal(index + 1) + ". " + cheat
  }

  function CheatLines(cheats: seq<string>): (lines: seq<string>)
    ensures |lines| == |cheats|
  {
    seq(|cheats|, i requires 0 <= i < |cheats| => CheatLine(i, cheats[i]))
  }

  /** The numbered cheat list, one entry per line, as both the bail report and the
      failed-check diagnostic print it. */
  function FormatCheats(cheats: seq<string>): string {
    Join(CheatLines(cheats), "\n")
  }

  lemma CheatLineHasNoNewline(index: nat, cheat: string)
    requires '\n' !in cheat
    ensures '\n' !in CheatLine(index, cheat)
  {
    var d := Decimal(index + 1);
    assert CheatLine(index, cheat) == "  " + d + ". " + cheat;
  }

  /** Read line by line, the formatted list has exactly one line per cheat, in the
      given order, line k being the k-th cheat numbered k + 1. */
  lemma FormatCheatsLines(cheats: seq<string>)
    requires |cheats| > 0 && NoneContains(cheats, '\n')
    ensures |Split(FormatCheats(cheats), '\n')| == |cheats|
    ensures forall k :: 0 <= k < |cheats| ==>
              Split(FormatCheats(cheats), '\n')[k] == "  " + Decimal(k + 1) + ". " + cheats[k]
  {
    var lines := CheatLines(cheats);
    forall k | 0 <= k < |lines|
      ensures '\n' !in lines[k]
    {
      CheatLineHasNoNewline(k, cheats[k]);
    }
    SplitJoin(lines, '\n');
  }

  /** Whatever the cheats contain, each numbered entry occurs in the formatted list. */
  lemma FormatCheatsMentionsEach(cheats: seq<string>, k: nat)
    requires k < |cheats|
    ensures Contains(FormatCheats(cheats), "  " + Decimal(k + 1) + ". " + cheats[k])
  {
    ContainsJoinPart(CheatLines(cheats), "\n", k);
  }

  /** The formatted list, printed with a trailing newline, is one line per entry. */
  lemma EmittedCheatLines(cheats: seq<string>)
    requires |cheats| > 0
    ensures Emitted(CheatLines(cheats)) == FormatCheats(cheats) + "\n"
  {
    EmittedIsJoin(CheatLines(cheats));
  }

  // ---------------------------------------------------------------------------
  // cheat_bail! and cheat_ensure!
  // ---------------------------------------------------------------------------

  /** The 70-character border of the bail report. */
  function ReportBorder(): string {
    Repeat('=', 70)
  }

  const ReportHeader := "=== CHEAT-GUARDED FAILURE ==="

  /** The error message of a cheat-guarded failure. Every field is placed verbatim;
      `error` is the caller's already formatted message. */
  function Report(protects: string, severity: string, cheats: seq<string>,
                  consequence: string, error: string): string
    requires |cheats| > 0
  {
    "\n" + ReportBorder() + "\n" +
    ReportHeader + "\n" +
    ReportBorder() + "\n\n" +
    "PROTECTS: " + protects + "\n" +
    "SEVERITY: " + severity + "\n\n" +
    "CHEAT VECTORS:\n" +
    FormatCheats(cheats) + "\n\n" +
    "USER CONSEQUENCE:\n" +
    consequence + "\n\n" +
    "ERROR:\n" +
    error + "\n" +
    ReportBorder() + "\n"
  }

  /** The report, line by line: each line is followed by a newline in the text. The
      groups are the template's paragraphs, each closed by a blank line except the last. */
  function ReportLines(protects: string, severity: string, cheats: seq<string>,
                       consequence: string, error: string): seq<string>
  {
    ["", ReportBorder(), ReportHeader, ReportBorder(), ""] +
    ["PROTECTS: " + protects, "SEVERITY: " + severity, ""] +
    ["CHEAT VECTORS:"] + CheatLines(cheats) + [""] +
    ["USER CONSEQUENCE:", consequence, ""] +
    ["ERROR:", error, ReportBorder()]
  }

  // Each lemma below reads one paragraph of the template as lines (`x` is the text
  // before it, `b` the border, `h` the header).

  lemma ReportBannerText(b: string, h: string)
    ensures "\n" + b + "\n" + h + "\n" + b + "\n\n" == Emitted(["", b, h, b, ""])
  {
    EmittedThree("", b, h);
    EmittedThree(b, "", "");
    EmittedAppend(["", b, h], [b, ""]);
    EmittedCons(b, [""]);
    EmittedOne("");
    assert ["", b, h] + [b, ""] == ["", b, h, b, ""];
  }

  lemma ReportMetadataText(x: string, protects: string, severity: string)
    ensures x + "PROTECTS: " + protects + "\n" + "SEVERITY: " + severity + "\n\n"
            == x + Emitted(["PROTECTS: " + protects, "SEVERITY: " + severity, ""])
  {
    EmittedThree("PROTECTS: " + protects, "SEVERITY: " + severity, "");
  }

  lemma ReportCheatsHeadingText(x: string)
    ensures x + "CHEAT VECTORS:\n" == x + Emitted(["CHEAT VECTORS:"])
  {
    EmittedOne("CHEAT VECTORS:");
  }

  lemma ReportCheatsText(x: string, cheatText: string)
    ensures x + cheatText + "\n\n" == x + (cheatText + "\n") + Emitted([""])
  {
    EmittedOne("");
  }

  lemma ReportConsequenceText(x: string, consequence: string)
    ensures x + "USER CONSEQUENCE:\n" + consequence + "\n\n"
            == x + Emitted(["USER CONSEQUENCE:", consequence, ""])
  {
    EmittedThree("USER CONSEQUENCE:", consequence, "");
  }

  lemma ReportErrorText(x: string, error: string, b: string)
    ensures x + "ERROR:\n" + error + "\n" + b + "\n" == x + Emitted(["ERROR:", error, b])
  {
    EmittedThree("ERROR:", error, b);
  }

  /** Whatever the fields contain, the report is its lines in this order, each
      followed by a newline: border, header, border, PROTECTS, SEVERITY, the
      numbered cheats, the consequence, the error message, border. */
  lemma ReportAsLines(protects: string, severity: string, cheats: seq<string>,
                      consequence: string, error: string)
    requires |cheats| > 0
    ensures Report(protects, severity, cheats, consequence, error)
            == Emitted(ReportLines(protects, severity, cheats, consequence, error))
  {
    var b, h, f := ReportBorder(), ReportHeader, FormatCheats(cheats);
    var banner := ["", b, h, b, ""];
    var metadata := ["PROTECTS: " + protects, "SEVERITY: " + severity, ""];
    var cheatLines := CheatLines(cheats);
    var userConsequence := ["USER CONSEQUENCE:", consequence, ""];
    var errorLines := ["ERROR:", error, b];
    var t1 := "\n" + b + "\n" + h + "\n" + b + "\n\n";
    var t2 := t1 + "PROTECTS: " + protects + "\n" + "SEVERITY: " + severity + "\n\n";
    var t3 := t2 + "CHEAT VECTORS:\n";
    var t4 := t3 + f + "\n\n";
    var t5 := t4 + "USER CONSEQUENCE:\n" + consequence + "\n\n";
    ReportBannerText(b, h);
    ReportMetadataText(t1, protects, severity);
    ReportCheatsHeadingText(t2);
    ReportCheatsText(t3, f);
    EmittedCheatLines(cheats);
    ReportConsequenceText(t4, consequence);
    ReportErrorText(t5, error, b);
    var l1 := banner + metadata;
    var l2 := l1 + ["CHEAT VECTORS:"];
    var l3 := l2 + cheatLines;
    var l4 := l3 + [""];
    var l5 := l4 + userConsequence;
    EmittedAppend(banner, metadata);
    EmittedAppend(l1, ["CHEAT VECTORS:"]);
    EmittedAppend(l2, cheatLines);
    EmittedAppend(l3, [""]);
    EmittedAppend(l4, userConsequence);
    EmittedAppend(l5, errorLines);
  }

  /** The report opens with a newline and the 70-`=` border on a line of its own, and
      closes with the same border followed by a newline. */
  lemma ReportFramed(protects: string, severity: string, cheats: seq<string>,
                     consequence: string, error: string)
    requires |cheats| > 0
    ensures var report := Report(protects, severity, cheats, consequence, error);
            && |report| >= 72 + 71
            && report[..72] == "\n" + ReportBorder() + "\n"
            && report[|report| - 71..] == ReportBorder() + "\n"
  {
    ReportAsLines(protects, severity, cheats, consequence, error);
    ReportLinesFramed(protects, severity, cheats, consequence, error);
  }

  /** The same frame, read from the report's lines. */
  lemma ReportLinesFramed(protects: string, severity: string, cheats: seq<string>,
                          consequence: string, error: string)
    ensures var report := Emitted(ReportLines(protects, severity, cheats, consequence, error));
            && StartsWith(report, "\n" + ReportBorder() + "\n")
            && EndsWith(report, ReportBorder() + "\n")
            && |report| >= 72 + 71
  {
    BannerToBorder(ReportBorder(), ReportHeader,
                   ["PROTECTS: " + protects, "SEVERITY: " + severity, ""], CheatLines(cheats),
                   ["USER CONSEQUENCE:", consequence, ""], error);
  }

  /** Text made of the report's paragraphs opens with the banner's first border and
      closes with the error paragraph's border, whatever the paragraphs between. */
  lemma BannerToBorder(b: string, h: string, metadata: seq<string>, cheatLines: seq<string>,
                       userConsequence: seq<string>, error: string)
    ensures var text := Emitted(["", b, h, b, ""] + metadata + ["CHEAT VECTORS:"] + cheatLines + [""] +
                                userConsequence + ["ERROR:", error, b]);
            && StartsWith(text, "\n" + b + "\n")
            && EndsWith(text, b + "\n")
            && |text| >= |"\n" + b + "\n"| + |b + "\n"|
  {
    var opening, closing := "\n" + b + "\n", b + "\n";
    var banner := ["", b, h, b, ""];
    var errorLines := ["ERROR:", error, b];
    var l1 := banner + metadata;
    var l2 := l1 + ["CHEAT VECTORS:"];
    var l3 := l2 + cheatLines;
    var l4 := l3 + [""];
    var l5 := l4 + userConsequence;
    // The opening border is the start of the banner and stays the start as lines follow.
    ReportBannerText(b, h);
    assert Emitted(banner) == opening + (h + "\n" + b + "\n\n");
    StartsWithAppend(opening, h + "\n" + b + "\n\n", opening);
    EmittedAppend(banner, metadata);
    StartsWithAppend(Emitted(banner), Emitted(metadata), opening);
    EmittedAppend(l1, ["CHEAT VECTORS:"]);
    StartsWithAppend(Emitted(l1), Emitted(["CHEAT VECTORS:"]), opening);
    EmittedAppend(l2, cheatLines);
    StartsWithAppend(Emitted(l2), Emitted(cheatLines), opening);
    EmittedAppend(l3, [""]);
    StartsWithAppend(Emitted(l3), Emitted([""]), opening);
    EmittedAppend(l4, userConsequence);
    StartsWithAppend(Emitted(l4), Emitted(userConsequence), opening);
    // The closing border ends the last paragraph.
    EmittedThree("ERROR:", error, b);
    assert Emitted(errorLines) == "ERROR:" + "\n" + error + "\n" + closing;
    EndsWithPrepend("ERROR:" + "\n" + error + "\n", closing, closing);
    EmittedAppend(l5, errorLines);
    StartsWithAppend(Emitted(l5), Emitted(errorLines), opening);
    EndsWithPrepend(Emitted(l5), Emitted(errorLines), closing);
  }

  /** With single-line fields, reading the report line by line gives exactly its
      lines in order (and the empty remainder after the final newline). */
  lemma ReportSplitsIntoLines(protects: string, severity: string, cheats: seq<string>,
                              consequence: string, error: string)
    requires |cheats| > 0 && NoneContains(cheats, '\n')
    requires '\n' !in protects && '\n' !in severity && '\n' !in consequence && '\n' !in error
    ensures Split(Report(protects, severity, cheats, consequence, error), '\n')
            == ReportLines(protects, severity, cheats, consequence, error) + [""]
  {
    ReportAsLines(protects, severity, cheats, consequence, error);
    ReportLinesSingle(protects, severity, cheats, consequence, error);
    SplitEmitted(ReportLines(protects, severity, cheats, consequence, error));
  }

  /** With single-line fields, no line of the report holds a newline. */
  lemma ReportLinesSingle(protects: string, severity: string, cheats: seq<string>,
                          consequence: string, error: string)
    requires NoneContains(cheats, '\n')
    requires '\n' !in protects && '\n' !in severity && '\n' !in consequence && '\n' !in error
    ensures NoneContains(ReportLines(protects, severity, cheats, consequence, error), '\n')
  {
    var b := ReportBorder();
    var banner := ["", b, ReportHeader, b, ""];
    var metadata := ["PROTECTS: " + protects, "SEVERITY: " + severity, ""];
    var cheatLines := CheatLines(cheats);
    var userConsequence := ["USER CONSEQUENCE:", consequence, ""];
    var errorLines := ["ERROR:", error, b];
    var l1 := banner + metadata;
    var l2 := l1 + ["CHEAT VECTORS:"];
    var l3 := l2 + cheatLines;
    var l4 := l3 + [""];
    var l5 := l4 + userConsequence;
    forall k | 0 <= k < |cheats|
      ensures '\n' !in cheatLines[k]
    {
      CheatLineHasNoNewline(k, cheats[k]);
    }
    NoneContainsAppend(banner, metadata, '\n');
    NoneContainsAppend(l1, ["CHEAT VECTORS:"], '\n');
    NoneContainsAppend(l2, cheatLines, '\n');
    NoneContainsAppend(l3, [""], '\n');
    NoneContainsAppend(l4, userConsequence, '\n');
    NoneContainsAppend(l5, errorLines, '\n');
  }

  /** Whatever the fields contain, the report mentions the PROTECTS and SEVERITY lines,
      every numbered cheat (with and without its indentation), the consequence and the
      error message. */
  lemma ReportMentions(protects: string, severity: string, cheats: seq<string>,
                       consequence: string, error: string)
    requires |cheats| > 0
    ensures var report := Report(protects, severity, cheats, consequence, error);
            && Contains(report, "PROTECTS: " + protects)
            && Contains(report, "SEVERITY: " + severity)
            && (forall k :: 0 <= k < |cheats| ==> Contains(report, "  " + Decimal(k + 1) + ". " + cheats[k]))
            && (forall k :: 0 <= k < |cheats| ==> Contains(report, Decimal(k + 1) + ". " + cheats[k]))
            && Contains(report, consequence)
            && Contains(report, error)
  {
    ReportAsLines(protects, severity, cheats, consequence, error);
    ReportLinesMention(protects, severity, cheats, consequence, error);
  }

  /** The same mentions, read from the report's lines. */
  lemma ReportLinesMention(protects: string, severity: string, cheats: seq<string>,
                           consequence: string, error: string)
    ensures var report := Emitted(ReportLines(protects, severity, cheats, consequence, error));
            && Contains(report, "PROTECTS: " + protects)
            && Contains(report, "SEVERITY: " + severity)
            && (forall k :: 0 <= k < |cheats| ==> Contains(report, "  " + Decimal(k + 1) + ". " + cheats[k]))
            && (forall k :: 0 <= k < |cheats| ==> Contains(report, Decimal(k + 1) + ". " + cheats[k]))
            && Contains(report, consequence)
            && Contains(report, error)
  {
    var b := ReportBorder();
    var banner := ["", b, ReportHeader, b, ""];
    var metadata := ["PROTECTS: " + protects, "SEVERITY: " + severity, ""];
    var cheatLines := CheatLines(cheats);
    var userConsequence := ["USER CONSEQUENCE:", consequence, ""];
    var errorLines := ["ERROR:", error, b];
    var l1 := banner + metadata;
    var l2 := l1 + ["CHEAT VECTORS:"];
    var l3 := l2 + cheatLines;
    var l4 := l3 + [""];
    var l5 := l4 + userConsequence;
    var text := Emitted(l5 + errorLines);
    // Each field is found in its own paragraph, then in every longer run of lines.
    ContainsEmittedLine(metadata, 0);
    ContainsEmittedLine(metadata, 1);
    ContainsEmittedRight(banner, metadata, "PROTECTS: " + protects);
    ContainsEmittedRight(banner, metadata, "SEVERITY: " + severity);
    ContainsEmittedLeft(l1, ["CHEAT VECTORS:"], "PROTECTS: " + protects);
    ContainsEmittedLeft(l1, ["CHEAT VECTORS:"], "SEVERITY: " + severity);
    ReportLinesKeep(l2, cheatLines, userConsequence, errorLines, "PROTECTS: " + protects);
    ReportLinesKeep(l2, cheatLines, userConsequence, errorLines, "SEVERITY: " + severity);
    forall k | 0 <= k < |cheats|
      ensures Contains(text, "  " + Decimal(k + 1) + ". " + cheats[k])
      ensures Contains(text, Decimal(k + 1) + ". " + cheats[k])
    {
      var entry := Decimal(k + 1) + ". " + cheats[k];
      ContainsEmittedLine(cheatLines, k);
      assert cheatLines[k] == "  " + entry;
      ContainsEmittedRight(l2, cheatLines, "  " + entry);
      ContainsEmittedLeft(l3, [""], "  " + entry);
      ContainsEmittedLeft(l4, userConsequence, "  " + entry);
      ContainsEmittedLeft(l5, errorLines, "  " + entry);
      ContainsDropPrefix(text, "  ", entry);
    }
    ContainsEmittedLine(userConsequence, 1);
    ContainsEmittedRight(l4, userConsequence, consequence);
    ContainsEmittedLeft(l5, errorLines, consequence);
    ContainsEmittedLine(errorLines, 1);
    ContainsEmittedRight(l5, errorLines, error);
  }

  /** A line found before the cheat list is still found once the rest of the report follows. */
  lemma ReportLinesKeep(l2: seq<string>, cheatLines: seq<string>, userConsequence: seq<string>,
                        errorLines: seq<string>, t: string)
    requires Contains(Emitted(l2), t)
    ensures Contains(Emitted(l2 + cheatLines + [""] + userConsequence + errorLines), t)
  {
    ContainsEmittedLeft(l2, cheatLines, t);
    ContainsEmittedLeft(l2 + cheatLines, [""], t);
    ContainsEmittedLeft(l2 + cheatLines + [""], userConsequence, t);
    ContainsEmittedLeft(l2 + cheatLines + [""] + userConsequence, errorLines, t);
  }

  /** `cheat_bail!`: always an error, whose message is the report. */
  function Bail(protects: string, severity: string, cheats: seq<string>,
                consequence: string, error: string): (r: Status)
    requires |cheats| > 0
    ensures r.Err?
    ensures r.message == Report(protects, severity, cheats, consequence, error)
  {
    Err(Report(protects, severity, cheats, consequence, error))
  }

  /** `cheat_ensure!`: success exactly when the condition holds; otherwise the very
      error `Bail` produces from the same arguments. */
  function Ensure(condition: bool, protects: string, severity: string, cheats: seq<string>,
                  consequence: string, error: string): (r: Status)
    requires |cheats| > 0
    ensures r.Ok? <==> condition
    ensures r.Err? ==> r == Bail(protects, severity, cheats, consequence, error)
  {
    if condition then Ok else Bail(protects, severity, cheats, consequence, error)
  }

  // ---------------------------------------------------------------------------
  // cheat_check!
  // ---------------------------------------------------------------------------

  /** An output stream (standard output or standard error). Each entry is the
      payload of one `println!`/`eprintln!`; the stream receives `Emitted(lines)`. */
  class LineSink {
    var lines: seq<string>

    constructor ()
      ensures lines == []
    {
      lines := [];
    }

    method WriteLine(line: string)
      modifies this
      ensures lines == old(lines) + [line]
    {
      lines := lines + [line];
    }
  }

  /** The caller's result aggregator, seen only through `add_check`: it keeps every
      recorded check in order and does not merge entries with the same name. */
  class StepResult {
    var checks: seq<(string, CheckResult)>

    constructor ()
      ensures checks == []
    {
      checks := [];
    }

    method AddCheck(name: string, result: CheckResult)
      modifies this
      ensures checks == old(checks) + [(name, result)]
    {
      checks := checks + [(name, result)];
    }
  }

  /** The 60-character border of the failed-check diagnostic. */
  function CheckBorder(): string {
    Repeat('=', 60)
  }

  /** The progress line printed for every check, passing or not. */
  function ProgressLine(name: string, protects: string): (line: string)
    ensures |line| == 27 + |name| + |protects|
    ensures StartsWith(line, "    checking: ") && EndsWith(line, ")")
    ensures line[14..14 + |name|] == name
    ensures line[14 + |name|..26 + |name|] == " (protects: "
    ensures line[26 + |name|..26 + |name| + |protects|] == protects
    ensures '\n' !in line <==> '\n' !in name && '\n' !in protects
  {
    "    checking: " + name + " (protects: " + protects + ")"
  }

  /** The result recorded for a check: a pass carrying the expectation, or a failure
      carrying the expectation and what was observed instead. */
  function CheckOutcome(condition: bool, expected: string, actual: string): (r: CheckResult)
    ensures r.Passed() <==> condition
    ensures r.expected == expected
    ensures r.Fail? ==> r.actual == actual
  {
    if condition then Pass(expected) else Fail(expected, actual)
  }

  /** The payloads of the `eprintln!` calls a failed check makes, in order. */
  function FailureWrites(name: string, protects: string, severity: string, cheats: seq<string>,
                         consequence: string): seq<string>
  {
    ["\n" + CheckBorder(),
     "CHEAT-GUARDED CHECK FAILED: " + name,
     CheckBorder(),
     "PROTECTS: " + protects,
     "SEVERITY: " + severity,
     "CHEATS:",
     FormatCheats(cheats),
     "CONSEQUENCE: " + consequence,
     CheckBorder()]
  }

  /** The failed-check diagnostic, line by line: the title between borders, the
      metadata, the numbered cheats, and the consequence closed by a border. */
  function FailureLines(name: string, protects: string, severity: string, cheats: seq<string>,
                        consequence: string): seq<string>
  {
    ["", CheckBorder(), "CHEAT-GUARDED CHECK FAILED: " + name, CheckBorder()] +
    ["PROTECTS: " + protects, "SEVERITY: " + severity, "CHEATS:"] +
    CheatLines(cheats) +
    ["CONSEQUENCE: " + consequence, CheckBorder()]
  }

  /** The first write, a newline then the border, reads as a blank line and a border. */
  lemma FailureTitleText(b: string, n: string)
    ensures Emitted(["\n" + b, n, b]) == Emitted(["", b, n, b])
  {
    EmittedThree("\n" + b, n, b);
    EmittedThree(b, n, b);
    EmittedCons("", [b, n, b]);
    assert [""] + [b, n, b] == ["", b, n, b];
  }

  /** The nine writes of the diagnostic (`b` the border, `f` the formatted cheat list
      printed by one write) give the text of its lines (`cheatLines` those of `f`). */
  lemma FailureWritesText(b: string, n: string, p: string, s: string, f: string, c: string,
                          cheatLines: seq<string>)
    requires Emitted(cheatLines) == f + "\n"
    ensures Emitted(["\n" + b, n, b, p, s, "CHEATS:", f, c, b])
            == Emitted(["", b, n, b] + [p, s, "CHEATS:"] + cheatLines + [c, b])
  {
    var title, metadata, tail := ["\n" + b, n, b], [p, s, "CHEATS:"], [c, b];
    assert ["\n" + b, n, b, p, s, "CHEATS:", f, c, b] == title + metadata + [f] + tail;
    EmittedAppend(title, metadata);
    EmittedAppend(title + metadata, [f]);
    EmittedAppend(title + metadata + [f], tail);
    EmittedOne(f);
    var banner := ["", b, n, b];
    EmittedAppend(banner, metadata);
    EmittedAppend(banner + metadata, cheatLines);
    EmittedAppend(banner + metadata + cheatLines, tail);
    FailureTitleText(b, n);
  }

  /** Whatever the fields contain, the diagnostic stream receives, in this order: a
      blank line, a border, the failed check's name, a border, PROTECTS, SEVERITY,
      CHEATS:, the numbered cheats, CONSEQUENCE and a closing border. */
  lemma FailureBlockAsLines(name: string, protects: string, severity: string, cheats: seq<string>,
                            consequence: string)
    requires |cheats| > 0
    ensures Emitted(FailureWrites(name, protects, severity, cheats, consequence))
            == Emitted(FailureLines(name, protects, severity, cheats, consequence))
  {
    EmittedCheatLines(cheats);
    FailureWritesText(CheckBorder(), "CHEAT-GUARDED CHECK FAILED: " + name, "PROTECTS: " + protects,
                      "SEVERITY: " + severity, FormatCheats(cheats), "CONSEQUENCE: " + consequence,
                      CheatLines(cheats));
  }

  /** With single-line fields, reading the diagnostic stream line by line gives exactly
      the diagnostic's lines. */
  lemma FailureBlockSplitsIntoLines(name: string, protects: string, severity: string,
                                    cheats: seq<string>, consequence: string)
    requires |cheats| > 0 && NoneContains(cheats, '\n')
    requires '\n' !in name && '\n' !in protects && '\n' !in severity && '\n' !in consequence
    ensures Split(Emitted(FailureWrites(name, protects, severity, cheats, consequence)), '\n')
            == FailureLines(name, protects, severity, cheats, consequence) + [""]
  {
    FailureBlockAsLines(name, protects, severity, cheats, consequence);
    FailureLinesSingle(name, protects, severity, cheats, consequence);
    SplitEmitted(FailureLines(name, protects, severity, cheats, consequence));
  }

  /** With single-line fields, no line of the diagnostic holds a newline. */
  lemma FailureLinesSingle(name: string, protects: string, severity: string,
                           cheats: seq<string>, consequence: string)
    requires NoneContains(cheats, '\n')
    requires '\n' !in name && '\n' !in protects && '\n' !in severity && '\n' !in consequence
    ensures NoneContains(FailureLines(name, protects, severity, cheats, consequence), '\n')
  {
    var b := CheckBorder();
    var banner := ["", b, "CHEAT-GUARDED CHECK FAILED: " + name, b];
    var metadata := ["PROTECTS: " + protects, "SEVERITY: " + severity, "CHEATS:"];
    var cheatLines := CheatLines(cheats);
    forall k | 0 <= k < |cheats|
      ensures '\n' !in cheatLines[k]
    {
      CheatLineHasNoNewline(k, cheats[k]);
    }
    NoneContainsAppend(banner, metadata, '\n');
    NoneContainsAppend(banner + metadata, cheatLines, '\n');
    NoneContainsAppend(banner + metadata + cheatLines, ["CONSEQUENCE: " + consequence, b], '\n');
  }

  /** Whatever the fields contain, the diagnostic mentions the failed check's name, the
      severity, every numbered cheat and the consequence. */
  lemma FailureBlockMentions(name: string, protects: string, severity: string, cheats: seq<string>,
                             consequence: string)
    requires |cheats| > 0
    ensures var text := Emitted(FailureWrites(name, protects, severity, cheats, consequence));
            && Contains(text, "CHEAT-GUARDED CHECK FAILED: " + name)
            && Contains(text, "PROTECTS: " + protects)
            && Contains(text, "SEVERITY: " + severity)
            && (forall k :: 0 <= k < |cheats| ==> Contains(text, "  " + Decimal(k + 1) + ". " + cheats[k]))
            && Contains(text, "CONSEQUENCE: " + consequence)
  {
    FailureBlockAsLines(name, protects, severity, cheats, consequence);
    FailureLinesMention(name, protects, severity, cheats, consequence);
  }

  /** The same mentions, read from the diagnostic's lines. */
  lemma FailureLinesMention(name: string, protects: string, severity: string, cheats: seq<string>,
                            consequence: string)
    ensures var text := Emitted(FailureLines(name, protects, severity, cheats, consequence));
            && Contains(text, "CHEAT-GUARDED CHECK FAILED: " + name)
            && Contains(text, "PROTECTS: " + protects)
            && Contains(text, "SEVERITY: " + severity)
            && (forall k :: 0 <= k < |cheats| ==> Contains(text, "  " + Decimal(k + 1) + ". " + cheats[k]))
            && Contains(text, "CONSEQUENCE: " + consequence)
  {
    var b := CheckBorder();
    var title := "CHEAT-GUARDED CHECK FAILED: " + name;
    var banner := ["", b, title, b];
    var metadata := ["PROTECTS: " + protects, "SEVERITY: " + severity, "CHEATS:"];
    var cheatLines := CheatLines(cheats);
    var tail := ["CONSEQUENCE: " + consequence, b];
    var l1 := banner + metadata;
    var l2 := l1 + cheatLines;
    ContainsEmittedLine(banner, 2);
    ContainsEmittedLeft(banner, metadata, title);
    ContainsEmittedLeft(l1, cheatLines, title);
    ContainsEmittedLeft(l2, tail, title);
    ContainsEmittedLine(metadata, 0);
    ContainsEmittedLine(metadata, 1);
    ContainsEmittedRight(banner, metadata, "PROTECTS: " + protects);
    ContainsEmittedRight(banner, metadata, "SEVERITY: " + severity);
    ContainsEmittedLeft(l1, cheatLines, "PROTECTS: " + protects);
    ContainsEmittedLeft(l1, cheatLines, "SEVERITY: " + severity);
    ContainsEmittedLeft(l2, tail, "PROTECTS: " + protects);
    ContainsEmittedLeft(l2, tail, "SEVERITY: " + severity);
    forall k | 0 <= k < |cheats|
      ensures Contains(Emitted(l2 + tail), "  " + Decimal(k + 1) + ". " + cheats[k])
    {
      ContainsEmittedLine(cheatLines, k);
      ContainsEmittedRight(l1, cheatLines, cheatLines[k]);
      ContainsEmittedLeft(l2, tail, cheatLines[k]);
    }
    ContainsEmittedLine(tail, 0);
    ContainsEmittedRight(l2, tail, "CONSEQUENCE: " + consequence);
  }

  /** `cheat_check!`: prints the progress line, prints the diagnostic when the
      condition is false, and records exactly one result under `name`. It never
      fails; the recorded result passes exactly when the condition holds. */
  method Check(result: StepResult, out: LineSink, err: LineSink,
               name: string, condition: bool, protects: string, severity: string,
               cheats: seq<string>, consequence: string, expected: string, actual: string)
    requires |cheats| > 0
    requires out != err
    modifies result, out, err
    ensures result.checks == old(result.checks) + [(name, CheckOutcome(condition, expected, actual))]
    ensures out.lines == old(out.lines) + [ProgressLine(name, protects)]
    ensures err.lines == old(err.lines) +
                         (if condition then [] else FailureWrites(name, protects, severity, cheats, consequence))
  {
    var cheatsFormatted := FormatCheats(cheats);
    out.WriteLine(ProgressLine(name, protects));
    if condition {
      result.AddCheck(name, Pass(expected));
    } else {
      ReportFailure(err, name, protects, severity, cheatsFormatted, consequence);
      result.AddCheck(name, Fail(expected, actual));
    }
  }

  /** The diagnostic a failed check prints, one `eprintln!` at a time. */
  method ReportFailure(err: LineSink, name: string, protects: string, severity: string,
                       cheatsFormatted: string, consequence: string)
    modifies err
    ensures err.lines == old(err.lines) +
                         ["\n" + CheckBorder(), "CHEAT-GUARDED CHECK FAILED: " + name, CheckBorder(),
                          "PROTECTS: " + protects, "SEVERITY: " + severity, "CHEATS:", cheatsFormatted,
                          "CONSEQUENCE: " + consequence, CheckBorder()]
  {
    var border := CheckBorder();
    err.WriteLine("\n" + border);
    err.WriteLine("CHEAT-GUARDED CHECK FAILED: " + name);
    err.WriteLine(border);
    err.WriteLine("PROTECTS: " + protects);
    err.WriteLine("SEVERITY: " + severity);
    err.WriteLine("CHEATS:");
    err.WriteLine(cheatsFormatted);
    err.WriteLine("CONSEQUENCE: " + consequence);
    err.WriteLine(border);
  }

  /** The documented use of `cheat_check!` on a fresh step: checking that the sfdisk
      output mentions vda1. Exactly one result is recorded; it passes exactly when the
      output mentions vda1, and the diagnostic appears only on failure. */
  method PartitionStep(output: string)
    returns (checks: seq<(string, CheckResult)>, diagnostics: seq<string>)
    ensures |checks| == 1 && checks[0].0 == "Partition table created"
    ensures checks[0].1.Passed() <==> Contains(output, "vda1")
    ensures checks[0].1 == if Contains(output, "vda1") then Pass("Partition vda1 exists")
                           else Fail("Partition vda1 exists", "sfdisk output: " + output)
    ensures Contains(output, "vda1") <==> diagnostics == []
  {
    var step := new StepResult();
    var out := new LineSink();
    var err := new LineSink();
    Check(step, out, err, "Partition table created", HasSubstring(output, "vda1"),
          "Disk has correct partitions", "CRITICAL",
          ["Accept any output", "Skip verification"], "No partitions, installation fails",
          "Partition vda1 exists", "sfdisk output: " + output);
    checks := step.checks;
    diagnostics := err.lines;
  }
}
