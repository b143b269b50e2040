/**
 * The decisions of the command-line front end: whether the intro banner is
 * shown, the grid of rows the `build` command prints after a size report, and
 * the git/npm steps the `publish` command runs for each increment choice.
 */
module Cli {
  import opened Wrappers
  import opened Utils
  import opened SizeReport
  import opened Sequences

  // ------------------------------------------------------------ intro hook

  /**
   * The hook run before every command: `None` when no banner is shown,
   * otherwise `Some(noThrow)` with the flag handed to the banner printer.
   * With `noThrow` set, a missing package.json is tolerated: the banner
   * skips the "Working on" line instead of stopping with exit code 1.
   * `commandName` is `None` when no command was given.
   */
  function Intro(commandName: Option<string>, noIntro: bool): (shown: Option<bool>)
    ensures shown.Some? <==> commandName != Some("publish") && !noIntro
    ensures shown.Some? ==>
      (shown.value <==> commandName == None || commandName == Some("") || commandName == Some("init"))
  {
    if commandName != Some("publish") && !noIntro then
      Some(commandName == None || commandName == Some("") || commandName == Some("init"))
    else
      None
  }

  /** The banner for each registered command, and the `--noIntro` flag silencing all of them. */
  lemma IntroPerCommand(noIntro: bool)
    ensures Intro(Some("publish"), noIntro) == None
    ensures Intro(Some("build"), noIntro) == if noIntro then None else Some(false)
    ensures Intro(Some("test"), noIntro) == if noIntro then None else Some(false)
    ensures Intro(Some("init"), noIntro) == if noIntro then None else Some(true)
    ensures Intro(None, noIntro) == if noIntro then None else Some(true)
  {
  }

  // ----------------------------------------------------------- build table

  /**
   * A table cell: literal text, markup handed to the colour printer, or the
   * printer's markup for a style tag followed by a byte count, which
   * `CellText` writes in human form with `HumanFileSize`.
   */
  datatype Cell = Plain(text: string) | Printed(markup: string) | PrintedSize(style: string, bytes: nat)

  /** The text of a cell as handed to `table` (plain) or to `tablePrint` (markup). */
  function CellText(cell: Cell): string
  {
    match cell
    case Plain(text) => text
    case Printed(markup) => markup
    case PrintedSize(style, bytes) => style + HumanFileSize(bytes)
  }

  /** A row of the three-column grid. */
  datatype Row = Row(name: Cell, original: Cell, brotli: Cell)

  const Header: Row := Row(Plain("Bundle"), Plain("Original size"), Plain("Brotli size"))

  const Blank: Row := Row(Plain(""), Plain(""), Plain(""))

  const LastBranch: string := "\U{2514}"
  const MidBranch: string := "\U{251C}"
  const Dash: string := "\U{2500} "

  /** The row label of a bundle: the package name for `main`, `<package>/<bundle>` otherwise. */
  function Label(packageName: string, bundleName: string): (text: string)
    ensures text == packageName <==> bundleName == "main"
    ensures bundleName != "main" ==>
      |text| == |packageName| + 1 + |bundleName| && text[..|packageName|] == packageName &&
      text[|packageName|] == '/' && text[|packageName| + 1..] == bundleName
  {
    if bundleName == "main" then packageName else packageName + "/" + bundleName
  }

  /** The label is the bare package name exactly for the bundles declared as `.`, `./.`, `main` or `./main`. */
  lemma LabelIsPackage(packageName: string, declaration: string)
    ensures Label(packageName, BundleName(declaration)) == packageName <==>
      declaration in {".", "./.", "main", "./main"}
  {
    var name := BundleName(declaration);
    if name != "main" {
      assert |packageName + "/" + name| > |packageName|;
    }
    BundleNames(".");
    BundleNames("main");
    assert "./" + "." == "./." && "./" + "main" == "./main";
    if |declaration| >= 2 && declaration[..2] == "./" {
      var rest := declaration[2..];
      assert declaration == "./" + rest;
      BundleNames(rest);
      assert "./."[2..] == "." && "./main"[2..] == "main";
      if name == "main" {
        assert rest == "." || rest == "main";
        assert declaration in {".", "./.", "main", "./main"};
      } else {
        assert rest != "." && rest != "main";
        assert declaration != "./." && declaration != "./main";
        assert declaration[0] == '.' && "main"[0] == 'm';
      }
    } else {
      assert declaration != "./." && declaration != "./main";
    }
  }

  function BundleRow(packageName: string, bundle: BundleReport): Row
  {
    Row(Plain(Label(packageName, bundle.name)),
        PrintedSize("{b}", bundle.sizes.raw),
        PrintedSize("{c/b}", bundle.sizes.compressed))
  }

  /** The tree glyph of file `i` of `n`: a corner for the last file, a tee for all others. */
  function Glyph(i: nat, n: nat): (g: string)
    ensures g == LastBranch <==> i + 1 == n
    ensures g == MidBranch <==> i + 1 != n
  {
    if i + 1 == n then LastBranch else MidBranch
  }

  function FileRow(file: FileReport, i: nat, n: nat): Row
  {
    Row(Printed("{d}" + Glyph(i, n) + Dash + file.path),
        PrintedSize("{d}", file.sizes.raw),
        PrintedSize("{d}", file.sizes.compressed))
  }

  /** The rows of the first `k` files of a bundle, glyphs chosen against all of its files. */
  function FileRows(files: seq<FileReport>, k: nat): (rows: seq<Row>)
    requires k <= |files|
  {
    seq(k, j requires 0 <= j < k => FileRow(files[j], j, |files|))
  }

  lemma FileRowsStep(files: seq<FileReport>, k: nat)
    requires k < |files|
    ensures FileRows(files, k + 1) == FileRows(files, k) + [FileRow(files[k], k, |files|)]
  {
    var longer := FileRows(files, k + 1);
    var shorter := FileRows(files, k);
    forall j | 0 <= j < k + 1
      ensures longer[j] == (shorter + [FileRow(files[k], k, |files|)])[j]
    {
      if j < k {
        assert shorter[j] == FileRow(files[j], j, |files|);
      }
    }
  }

  /** A bundle's block: a blank separator, the bundle row, one row per file. */
  function Block(packageName: string, bundle: BundleReport): (rows: seq<Row>)
    ensures |rows| == 2 + |bundle.files|
  {
    [Blank, BundleRow(packageName, bundle)] + FileRows(bundle.files, |bundle.files|)
  }

  /** The number of rows the blocks of `report` take. */
  function BlockRows(report: seq<BundleReport>): nat
  {
    if report == [] then 0 else BlockRows(report[..|report| - 1]) + 2 + |report[|report| - 1].files|
  }

  function Blocks(packageName: string, report: seq<BundleReport>): (rows: seq<Row>)
    ensures |rows| == BlockRows(report)
  {
    if report == [] then []
    else Blocks(packageName, report[..|report| - 1]) + Block(packageName, report[|report| - 1])
  }

  function TotalRow(original: nat, brotli: nat): Row
  {
    Row(Printed("{b}Total"), PrintedSize("{b}", original), PrintedSize("{g/b}", brotli))
  }

  /** The whole grid: the header, every bundle's block, and the totals when there is more than one bundle. */
  function Table(packageName: string, report: seq<BundleReport>): (table: seq<Row>)
    ensures |table| == 1 + BlockRows(report) + (if |report| > 1 then 2 else 0)
    ensures table[0] == Header
  {
    [Header] + Blocks(packageName, report) +
    (if |report| > 1 then [Blank, TotalRow(Total(report, 0), Total(report, 2))] else [])
  }

  /** `bundleReport.files.map(...)`: one row per file, pushed in file order. */
  method PushFileRows(table: seq<Row>, files: seq<FileReport>) returns (pushed: seq<Row>)
    ensures pushed == table + FileRows(files, |files|)
  {
    pushed := table;
    var totalFiles := |files|;
    for i := 0 to totalFiles
      invariant pushed == table + FileRows(files, i)
    {
      var file := files[i];
      AppendAssoc(table, FileRows(files, i), [FileRow(file, i, totalFiles)]);
      FileRowsStep(files, i);
      pushed := pushed + [Row(
        Printed("{d}" + (if i == totalFiles - 1 then LastBranch else MidBranch) + Dash + file.path),
        PrintedSize("{d}", file.sizes.raw),
        PrintedSize("{d}", file.sizes.compressed))];
    }
  }

  /** The body of `report.forEach(...)` after the totals: a blank row, the bundle row, the file rows. */
  method PushBlock(table: seq<Row>, packageName: string, bundleReport: BundleReport) returns (pushed: seq<Row>)
    ensures pushed == table + Block(packageName, bundleReport)
  {
    pushed := table + [Blank];
    pushed := pushed + [Row(
      Plain(Label(packageName, bundleReport.name)),
      PrintedSize("{b}", bundleReport.sizes.raw),
      PrintedSize("{c/b}", bundleReport.sizes.compressed))];
    assert pushed == table + [Blank, BundleRow(packageName, bundleReport)];
    AppendAssoc(table, [Blank, BundleRow(packageName, bundleReport)], FileRows(bundleReport.files, |bundleReport.files|));
    pushed := PushFileRows(pushed, bundleReport.files);
  }

  /** The table-building statements of the `build` command, with their running totals. */
  method BuildTable(packageName: string, report: seq<BundleReport>) returns (table: seq<Row>)
    ensures table == Table(packageName, report)
  {
    table := [Header];
    var totalOriginalSize: nat := 0;
    var totalBrotliSize: nat := 0;
    for b := 0 to |report|
      invariant table == [Header] + Blocks(packageName, report[..b])
      invariant totalOriginalSize == Total(report[..b], 0)
      invariant totalBrotliSize == Total(report[..b], 2)
    {
      var bundleReport := report[b];
      TotalPrefix(report, b, 0);
      TotalPrefix(report, b, 2);
      BlocksStep(packageName, report, b);
      totalOriginalSize := totalOriginalSize + bundleReport.sizes.raw;
      totalBrotliSize := totalBrotliSize + bundleReport.sizes.compressed;
      AppendAssoc([Header], Blocks(packageName, report[..b]), Block(packageName, bundleReport));
      table := PushBlock(table, packageName, bundleReport);
    }
    assert report[..|report|] == report;
    if |report| > 1 {
      table := table + [Blank];
      table := table + [Row(
        Printed("{b}Total"),
        PrintedSize("{b}", totalOriginalSize),
        PrintedSize("{g/b}", totalBrotliSize))];
    }
  }

  lemma BlocksStep(packageName: string, report: seq<BundleReport>, b: nat)
    requires b < |report|
    ensures Blocks(packageName, report[..b + 1]) == Blocks(packageName, report[..b]) + Block(packageName, report[b])
  {
    assert report[..b + 1][..b] == report[..b];
  }

  /** The blocks of a prefix of the report are a prefix of the blocks of the report. */
  lemma {:induction false} BlocksPrefix(packageName: string, report: seq<BundleReport>, b: nat, k: nat)
    requires b < |report| && k < 2 + |report[b].files|
    ensures BlockRows(report[..b]) + k < BlockRows(report)
    ensures Blocks(packageName, report)[BlockRows(report[..b]) + k] == Block(packageName, report[b])[k]
  {
    var init := report[..|report| - 1];
    var front := Blocks(packageName, init);
    var whole := Blocks(packageName, report);
    assert whole == front + Block(packageName, report[|report| - 1]);
    if b == |report| - 1 {
      assert init == report[..b];
      assert whole[|front| + k] == Block(packageName, report[b])[k];
    } else {
      assert init[..b] == report[..b];
      assert init[b] == report[b];
      BlocksPrefix(packageName, init, b, k);
      var i := BlockRows(report[..b]) + k;
      assert whole[i] == front[i];
    }
  }

  /** Row `k` of bundle `b`'s block sits in the table after the header and the earlier blocks. */
  lemma TableBlockRow(packageName: string, report: seq<BundleReport>, b: nat, k: nat)
    requires b < |report| && k < 2 + |report[b].files|
    ensures 1 + BlockRows(report[..b]) + k < |Table(packageName, report)|
    ensures Table(packageName, report)[1 + BlockRows(report[..b]) + k] == Block(packageName, report[b])[k]
  {
    BlocksPrefix(packageName, report, b, k);
    var blocks := Blocks(packageName, report);
    var tail := if |report| > 1 then [Blank, TotalRow(Total(report, 0), Total(report, 2))] else [];
    var i := BlockRows(report[..b]) + k;
    assert Table(packageName, report) == [Header] + blocks + tail;
    assert ([Header] + blocks + tail)[1 + i] == blocks[i];
  }

  /**
   * The layout of the table: the header first; bundle `b`'s block starting
   * after the blocks of the bundles before it, with a blank row, the bundle
   * row and its file rows in file order, the last file under a corner glyph.
   */
  lemma TableLayout(packageName: string, report: seq<BundleReport>, b: nat)
    requires b < |report|
    ensures var table := Table(packageName, report);
      var at := 1 + BlockRows(report[..b]);
      var files := report[b].files;
      table[0] == Header &&
      at + 1 + |files| < |table| &&
      table[at] == Blank &&
      table[at + 1] == BundleRow(packageName, report[b]) &&
      forall j :: 0 <= j < |files| ==> table[at + 2 + j] == FileRow(files[j], j, |files|)
  {
    var table := Table(packageName, report);
    var at := 1 + BlockRows(report[..b]);
    var files := report[b].files;
    var block := Block(packageName, report[b]);
    TableBlockRow(packageName, report, b, 0);
    TableBlockRow(packageName, report, b, 1);
    TableBlockRow(packageName, report, b, 1 + |files|);
    forall j | 0 <= j < |files|
      ensures table[at + 2 + j] == FileRow(files[j], j, |files|)
    {
      TableBlockRow(packageName, report, b, 2 + j);
      assert block[2 + j] == FileRows(files, |files|)[j];
    }
  }

  /** The size cells of a bundle row print `{b}` and `{c/b}` before the human sizes. */
  lemma BundleRowCells(packageName: string, bundle: BundleReport)
    ensures CellText(BundleRow(packageName, bundle).original) == "{b}" + HumanFileSize(bundle.sizes.raw)
    ensures CellText(BundleRow(packageName, bundle).brotli) == "{c/b}" + HumanFileSize(bundle.sizes.compressed)
  {
  }

  /** The size cells of a file row print `{d}` before the human sizes. */
  lemma FileRowCells(file: FileReport, i: nat, n: nat)
    ensures CellText(FileRow(file, i, n).original) == "{d}" + HumanFileSize(file.sizes.raw)
    ensures CellText(FileRow(file, i, n).brotli) == "{d}" + HumanFileSize(file.sizes.compressed)
  {
  }

  /** The table ends with a blank row and the totals row exactly when there is more than one bundle. */
  lemma TableTotals(packageName: string, report: seq<BundleReport>)
    ensures var table := Table(packageName, report);
      |table| == 1 + BlockRows(report) + (if |report| > 1 then 2 else 0) &&
      (|report| > 1 ==>
        table[|table| - 2] == Blank &&
        table[|table| - 1] == TotalRow(Total(report, 0), Total(report, 2)))
  {
  }

  /** The block of a bundle with no files is a blank row and the bundle row only. */
  lemma EmptyBundleBlock(packageName: string, bundle: BundleReport)
    requires bundle.files == []
    ensures Block(packageName, bundle) == [Blank, BundleRow(packageName, bundle)]
  {
  }

  // --------------------------------------------------------------- publish

  datatype Increment = Patch | Minor | Major | Keep | Push | Skip

  function IncrementName(increment: Increment): (name: string)
    ensures '"' !in name
  {
    match increment
    case Patch => "patch"
    case Minor => "minor"
    case Major => "major"
    case Keep => "keep"
    case Push => "push"
    case Skip => "skip"
  }

  /** Whether the choice bumps the version with `npm version`. */
  predicate Bumps(increment: Increment)
  {
    increment != Keep && increment != Push && increment != Skip
  }

  /** One step of the publish command: a shell command, or the closing notice. */
  datatype Step =
    | NpmVersion(increment: Increment, name: string, message: string)
    | GitAdd
    | GitCommit(name: string, version: string, message: string)
    | GitPush
    | NpmPublish
    | Published(name: string, version: string)
    | Pushed(name: string)

  /** No text field of the step holds a double quote. */
  predicate QuoteFree(step: Step)
  {
    match step
    case NpmVersion(_, name, message) => '"' !in name && '"' !in message
    case GitCommit(name, version, message) => '"' !in name && '"' !in version && '"' !in message
    case Published(name, version) => '"' !in name && '"' !in version
    case Pushed(name) => '"' !in name
    case _ => true
  }

  /** Whether the step's command carries a `-m"…"` argument. */
  predicate HasMessage(step: Step)
  {
    step.NpmVersion? || step.GitCommit?
  }

  /** The command text before the opening quote of a `-m"…"` argument. */
  function CommandHead(step: Step): (head: string)
    requires HasMessage(step)
    ensures '"' !in head
  {
    match step
    case NpmVersion(increment, _, _) => "npm version " + IncrementName(increment) + " --no-git-tag-version -m"
    case GitCommit(_, _, _) => "git commit -m"
  }

  /** The text between the quotes of a `-m"…"` argument. */
  function MessageArg(step: Step): (arg: string)
    requires HasMessage(step)
    ensures QuoteFree(step) ==> '"' !in arg
  {
    match step
    case NpmVersion(_, name, message) => name + " - %s - " + message
    case GitCommit(name, version, message) => name + " - " + version + " : " + message
  }

  /** The shell command a step runs (`None` for the notices). */
  function CommandLine(step: Step): (line: Option<string>)
    ensures line.None? <==> step.Published? || step.Pushed?
  {
    match step
    case NpmVersion(_, _, _) => Some(CommandHead(step) + "\"" + MessageArg(step) + "\"")
    case GitAdd => Some("git add .")
    case GitCommit(_, _, _) => Some(CommandHead(step) + "\"" + MessageArg(step) + "\"")
    case GitPush => Some("git push")
    case NpmPublish => Some("npm publish --access public --ignore-scripts")
    case Published(_, _) => None
    case Pushed(_) => None
  }

  /**
   * For a step whose fields hold no double quote, the only double quotes
   * of its command are the pair around the `-m` argument: one right after
   * the head, one ending the line. No field can close the argument early.
   */
  lemma CommandQuotes(step: Step)
    requires QuoteFree(step) && CommandLine(step).Some?
    ensures var line := CommandLine(step).value;
      forall i :: 0 <= i < |line| ==>
        (line[i] == '"' <==> HasMessage(step) && (i == |CommandHead(step)| || i == |line| - 1))
  {
    var line := CommandLine(step).value;
    if HasMessage(step) {
      var head, arg := CommandHead(step), MessageArg(step);
      assert line == head + "\"" + arg + "\"";
      forall i | 0 <= i < |line|
        ensures line[i] == '"' <==> i == |head| || i == |line| - 1
      {
        if i < |head| {
          assert line[i] == head[i];
        } else if |head| < i < |line| - 1 {
          assert line[i] == arg[i - |head| - 1];
        }
      }
    } else {
      assert '"' !in line;
    }
  }

  /** `message.replace(/["']/g, "'")` */
  function Sanitize(message: string): (clean: string)
    ensures |clean| == |message|
    ensures forall i :: 0 <= i < |message| ==>
      clean[i] == (if message[i] == '"' || message[i] == '\'' then '\'' else message[i])
  {
    if message == [] then []
    else [if message[0] == '"' || message[0] == '\'' then '\'' else message[0]] + Sanitize(message[1..])
  }

  lemma SanitizeClean(message: string)
    ensures '"' !in Sanitize(message)
    ensures Sanitize(Sanitize(message)) == Sanitize(message)
  {
    var clean := Sanitize(message);
    assert forall i :: 0 <= i < |clean| ==> clean[i] != '"';
  }

  /**
   * The publish handler after the increment prompt. `version` is the
   * package's current version, `rawMessage` the typed commit message and
   * `bumped` the trimmed output of `npm version`.
   */
  method Publish(increment: Increment, name: string, version: string, rawMessage: string, bumped: string)
    returns (steps: seq<Step>)
    ensures increment == Skip <==> steps == []
    ensures increment != Skip ==>
      var at := if Bumps(increment) then 1 else 0;
      var newVersion := if Bumps(increment) then bumped else version;
      |steps| == at + (if increment == Push then 4 else 5) &&
      (Bumps(increment) ==> steps[0] == NpmVersion(increment, name, Sanitize(rawMessage))) &&
      steps[at] == GitAdd &&
      steps[at + 1] == GitCommit(name, newVersion, Sanitize(rawMessage)) &&
      steps[at + 2] == GitPush &&
      (if increment == Push then steps[at + 3] == Pushed(name)
       else steps[at + 3] == NpmPublish && steps[at + 4] == Published(name, newVersion))
    ensures (exists i :: 0 <= i < |steps| && steps[i].NpmVersion?) <==> Bumps(increment)
    ensures NpmPublish in steps <==> increment != Push && increment != Skip
    ensures '"' !in name && '"' !in version && '"' !in bumped ==>
      forall i :: 0 <= i < |steps| ==> QuoteFree(steps[i])
  {
    SanitizeClean(rawMessage);
    if increment == Skip {
      return [];
    }
    var message := Sanitize(rawMessage);
    var newVersion := version;
    steps := [];
    if increment != Keep && increment != Push {
      steps := steps + [NpmVersion(increment, name, message)];
      newVersion := bumped;
    }
    steps := steps + [GitAdd];
    steps := steps + [GitCommit(name, newVersion, message)];
    steps := steps + [GitPush];
    if increment != Push {
      steps := steps + [NpmPublish];
      steps := steps + [Published(name, newVersion)];
    } else {
      steps := steps + [Pushed(name)];
    }
  }
}
