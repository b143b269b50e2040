/**
 * The size report (src/commands/size-report.js): for each declared export
 * path, the built script files of its directory, their sizes raw, minified
 * and compressed, and the bundle's element-wise sums; then the report's
 * renderings as SVG badges and as a JSON file.
 *
 * The filesystem, the minifier and the compressor are an oracle (`Disk`):
 * it lists a bundle directory and measures a file in one step (the raw size
 * from the file, then the minifier's output and its compressed size).
 */
module SizeReport {
  import opened Wrappers
  import opened Numbers
  import opened Json
  import opened Utils
  import opened Sequences

  /** `[raw, minified, compressed]`, in that order. */
  datatype Sizes = Sizes(raw: nat, minified: nat, compressed: nat)
  {
    /** `sizes[i]` of the source's three-element array. */
    function At(i: nat): nat
      requires i < 3
    {
      if i == 0 then raw else if i == 1 then minified else compressed
    }
  }

  datatype FileReport = FileReport(path: string, sizes: Sizes)

  datatype BundleReport = BundleReport(name: string, files: seq<FileReport>, sizes: Sizes)

  /** One entry of a directory listing: its path, whether it is a file, its extensions. */
  datatype Entry = Entry(path: string, isFile: bool, extensions: seq<string>)

  /**
   * The environment: `children` lists the directory of a bundle declaration
   * (under the dist root), `measure` weighs one file (stat, terser, stat, brotli).
   */
  datatype Disk = Disk(
    children: string -> Result<seq<Entry>, string>,
    measure: string -> Result<Sizes, string>)

  datatype ReportError =
    | ListingFailed(bundle: string, diagnostic: string)
    | MeasureFailed(path: string, diagnostic: string)

  // ------------------------------------------------------ bundle discovery

  function LowerChar(c: char): char
  {
    if 'A' <= c <= 'Z' then (c as int + 32) as char else c
  }

  /** `toLowerCase`, on the letters that can lower-case to `j` or `s`. */
  function LowerCase(s: string): (r: string)
    ensures |r| == |s|
    ensures forall c :: c in r ==> !('A' <= c <= 'Z')
    ensures forall i :: 0 <= i < |s| && !('A' <= s[i] <= 'Z') ==> r[i] == s[i]
    ensures forall i :: 0 <= i < |s| && 'A' <= s[i] <= 'Z' ==> r[i] as int == s[i] as int + 32
  {
    seq(|s|, i requires 0 <= i < |s| => LowerChar(s[i]))
  }

  /** `f.isFile() && f.extensions?.[0]?.toLowerCase() === "js"` */
  predicate IsScript(e: Entry)
    ensures IsScript(e) <==>
      e.isFile && |e.extensions| > 0 && |e.extensions[0]| == 2 &&
      (e.extensions[0][0] == 'j' || e.extensions[0][0] == 'J') &&
      (e.extensions[0][1] == 's' || e.extensions[0][1] == 'S')
  {
    if e.isFile && |e.extensions| > 0 then
      var x := e.extensions[0];
      if |x| == 2 && (x[0] == 'j' || x[0] == 'J') && (x[1] == 's' || x[1] == 'S') then
        assert LowerCase(x) == "js";
        true
      else
        LowerCase(x) == "js"
    else
      false
  }

  /** The listing filtered to script files, mapped to their paths, listing order kept. */
  function ScriptPaths(entries: seq<Entry>): (paths: seq<string>)
    ensures |paths| <= |entries|
  {
    if entries == [] then []
    else (if IsScript(entries[0]) then [entries[0].path] else []) + ScriptPaths(entries[1..])
  }

  /** Filtering distributes over concatenation: the order of the listing is kept. */
  lemma {:induction false} ScriptPathsAppend(a: seq<Entry>, b: seq<Entry>)
    ensures ScriptPaths(a + b) == ScriptPaths(a) + ScriptPaths(b)
    decreases |a|
  {
    if a == [] {
      assert a + b == b;
    } else {
      assert (a + b)[0] == a[0] && (a + b)[1..] == a[1..] + b;
      ScriptPathsAppend(a[1..], b);
      var head := if IsScript(a[0]) then [a[0].path] else [];
      assert ScriptPaths(a + b) == head + ScriptPaths(a[1..] + b);
      AppendAssoc(head, ScriptPaths(a[1..]), ScriptPaths(b));
    }
  }

  /** A path is kept exactly when some script entry of the listing has it. */
  lemma {:induction false} ScriptPathsMembers(entries: seq<Entry>, p: string)
    ensures p in ScriptPaths(entries) <==>
      exists i :: 0 <= i < |entries| && IsScript(entries[i]) && entries[i].path == p
    decreases |entries|
  {
    if entries != [] {
      ScriptPathsMembers(entries[1..], p);
      if p in ScriptPaths(entries[1..]) {
        var i :| 0 <= i < |entries[1..]| && IsScript(entries[1..][i]) && entries[1..][i].path == p;
        assert entries[i + 1] == entries[1..][i];
      }
      if exists i :: 0 <= i < |entries| && IsScript(entries[i]) && entries[i].path == p {
        var i :| 0 <= i < |entries| && IsScript(entries[i]) && entries[i].path == p;
        if i > 0 {
          assert entries[1..][i - 1] == entries[i];
        }
      }
    }
  }

  /** The display name: a leading `./` removed, then `.` renamed `main`. */
  function BundleName(bundlePath: string): (name: string)
    ensures bundlePath == "." || bundlePath == "./." ==> name == "main"
    ensures name == "main" || (|name| <= |bundlePath| && name == bundlePath[|bundlePath| - |name|..])
  {
    var stripped := if |bundlePath| >= 2 && bundlePath[..2] == "./" then bundlePath[2..] else bundlePath;
    if stripped == "." then "main" else stripped
  }

  lemma BundleNames(x: string)
    ensures BundleName(".") == "main"
    ensures BundleName("./" + x) == if x == "." then "main" else x
  {
    assert ("./" + x)[..2] == "./";
    assert ("./" + x)[2..] == x;
  }

  lemma BundleNameUnprefixed(bundlePath: string)
    requires bundlePath != "." && !(|bundlePath| >= 2 && bundlePath[..2] == "./")
    ensures BundleName(bundlePath) == bundlePath
  {
  }

  /** `path.relative(root, path)` for a path inside `root`; any other path is kept whole. */
  function Relative(root: string, path: string): (r: string)
    ensures r == path || path == root + "/" + r
  {
    var prefix := root + "/";
    if |prefix| <= |path| && path[..|prefix|] == prefix then path[|prefix|..] else path
  }

  lemma RelativeInside(root: string, p: string)
    ensures Relative(root, root + "/" + p) == p
  {
    var path := root + "/" + p;
    assert path[..|root + "/"|] == root + "/";
    assert path[|root + "/"|..] == p;
  }

  // ----------------------------------------------------------- aggregation

  /** The element-wise sum of the files' size triples, accumulated in file order. */
  function SumSizes(files: seq<FileReport>): Sizes
    decreases |files|
  {
    if files == [] then Sizes(0, 0, 0)
    else
      var s := SumSizes(files[..|files| - 1]);
      var f := files[|files| - 1].sizes;
      Sizes(s.raw + f.raw, s.minified + f.minified, s.compressed + f.compressed)
  }

  /** `sum over files of files[*].sizes[i]`. */
  function ColumnSum(files: seq<FileReport>, i: nat): nat
    requires i < 3
    decreases |files|
  {
    if files == [] then 0 else ColumnSum(files[..|files| - 1], i) + files[|files| - 1].sizes.At(i)
  }

  /** The bundle invariant: `sizes[i] == sum(files[*].sizes[i])` for i in {0, 1, 2}. */
  ghost predicate Consistent(b: BundleReport)
  {
    forall i :: 0 <= i < 3 ==> b.sizes.At(i) == ColumnSum(b.files, i)
  }

  lemma {:induction false} SumSizesColumns(files: seq<FileReport>, i: nat)
    requires i < 3
    ensures SumSizes(files).At(i) == ColumnSum(files, i)
    decreases |files|
  {
    if files != [] {
      SumSizesColumns(files[..|files| - 1], i);
    }
  }

  /** The file reports of `paths`, in order; the first file that cannot be measured aborts. */
  function MeasureFiles(paths: seq<string>, disk: Disk, distRoot: string): (r: Result<seq<FileReport>, ReportError>)
    ensures r.Success? ==> |r.value| == |paths|
    ensures r.Failure? ==> r.error.MeasureFailed? && r.error.path in paths
    decreases |paths|
  {
    if paths == [] then Success([])
    else
      match MeasureFiles(paths[..|paths| - 1], disk, distRoot)
      case Failure(e) => Failure(e)
      case Success(prev) =>
        var p := paths[|paths| - 1];
        match disk.measure(p)
        case Failure(d) => Failure(MeasureFailed(p, d))
        case Success(s) => Success(prev + [FileReport(Relative(distRoot, p), s)])
  }

  /** One bundle's report, as the body of the outer loop builds it. */
  function Bundle(bundlePath: string, disk: Disk, distRoot: string): (r: Result<BundleReport, ReportError>)
    ensures disk.children(bundlePath).Failure? ==> r == Failure(ListingFailed(bundlePath, disk.children(bundlePath).error))
    ensures r.Success? ==>
      disk.children(bundlePath).Success? &&
      r.value.name == BundleName(bundlePath) &&
      |r.value.files| == |ScriptPaths(disk.children(bundlePath).value)|
  {
    match disk.children(bundlePath)
    case Failure(d) => Failure(ListingFailed(bundlePath, d))
    case Success(entries) =>
      match MeasureFiles(ScriptPaths(entries), disk, distRoot)
      case Failure(e) => Failure(e)
      case Success(files) => Success(BundleReport(BundleName(bundlePath), files, SumSizes(files)))
  }

  /** The whole report; the first bundle that fails aborts it. */
  function ReportOf(bundles: seq<string>, disk: Disk, distRoot: string): (r: Result<seq<BundleReport>, ReportError>)
    ensures r.Success? ==> |r.value| == |bundles|
    decreases |bundles|
  {
    if bundles == [] then Success([])
    else
      match ReportOf(bundles[..|bundles| - 1], disk, distRoot)
      case Failure(e) => Failure(e)
      case Success(prev) =>
        match Bundle(bundles[|bundles| - 1], disk, distRoot)
        case Failure(e) => Failure(e)
        case Success(b) => Success(prev + [b])
  }

  lemma {:induction false} MeasureFilesAborts(paths: seq<string>, k: nat, disk: Disk, distRoot: string)
    requires k <= |paths| && MeasureFiles(paths[..k], disk, distRoot).Failure?
    ensures MeasureFiles(paths, disk, distRoot) == MeasureFiles(paths[..k], disk, distRoot)
    decreases |paths| - k
  {
    if k < |paths| {
      assert paths[..k + 1][..k] == paths[..k];
      MeasureFilesAborts(paths, k + 1, disk, distRoot);
    } else {
      assert paths[..k] == paths;
    }
  }

  lemma {:induction false} ReportAborts(bundles: seq<string>, k: nat, disk: Disk, distRoot: string)
    requires k <= |bundles| && ReportOf(bundles[..k], disk, distRoot).Failure?
    ensures ReportOf(bundles, disk, distRoot) == ReportOf(bundles[..k], disk, distRoot)
    decreases |bundles| - k
  {
    if k < |bundles| {
      assert bundles[..k + 1][..k] == bundles[..k];
      ReportAborts(bundles, k + 1, disk, distRoot);
    } else {
      assert bundles[..k] == bundles;
    }
  }

  /**
   * The inner loop of `sizeReport`: each file measured in listing order, its
   * report appended and its triple added to the bundle's running sums.
   */
  method MeasureBundle(allFiles: seq<string>, disk: Disk, distRoot: string)
    returns (r: Result<seq<FileReport>, ReportError>, sizes: Sizes)
    ensures r == MeasureFiles(allFiles, disk, distRoot)
    ensures r.Success? ==> sizes == SumSizes(r.value)
  {
    var files: seq<FileReport> := [];
    sizes := Sizes(0, 0, 0);
    for i := 0 to |allFiles|
      invariant MeasureFiles(allFiles[..i], disk, distRoot) == Success(files)
      invariant sizes == SumSizes(files)
    {
      var filePath := allFiles[i];
      assert allFiles[..i + 1][..i] == allFiles[..i];
      var relativeFilePath := Relative(distRoot, filePath);
      var measured := disk.measure(filePath);
      if measured.Failure? {
        r := Failure(MeasureFailed(filePath, measured.error));
        MeasureFilesAborts(allFiles, i + 1, disk, distRoot);
        return;
      }
      var s := measured.value;
      sizes := Sizes(sizes.raw + s.raw, sizes.minified + s.minified, sizes.compressed + s.compressed);
      files := files + [FileReport(relativeFilePath, s)];
    }
    assert allFiles[..|allFiles|] == allFiles;
    r := Success(files);
  }

  /** `sizeReport(bundles, config)`, with `join(config.cwd, config.dist)` passed in as `distRoot`. */
  method SizeReport(bundles: seq<string>, disk: Disk, distRoot: string)
    returns (r: Result<seq<BundleReport>, ReportError>)
    ensures r == ReportOf(bundles, disk, distRoot)
  {
    var allBundleSizes: seq<BundleReport> := [];
    for b := 0 to |bundles|
      invariant ReportOf(bundles[..b], disk, distRoot) == Success(allBundleSizes)
    {
      var bundlePath := bundles[b];
      assert bundles[..b + 1][..b] == bundles[..b];
      var listing := disk.children(bundlePath);
      if listing.Failure? {
        r := Failure(ListingFailed(bundlePath, listing.error));
        ReportAborts(bundles, b + 1, disk, distRoot);
        return;
      }
      var allFiles := ScriptPaths(listing.value);
      var name := BundleName(bundlePath);
      var files, sizes := MeasureBundle(allFiles, disk, distRoot);
      if files.Failure? {
        r := Failure(files.error);
        ReportAborts(bundles, b + 1, disk, distRoot);
        return;
      }
      allBundleSizes := allBundleSizes + [BundleReport(name, files.value, sizes)];
    }
    assert bundles[..|bundles|] == bundles;
    r := Success(allBundleSizes);
  }

  // ------------------------------------------------ properties of the report

  /** The files of a measured bundle: one per path, in order, each with its own triple. */
  lemma {:induction false} MeasureFilesShape(paths: seq<string>, disk: Disk, distRoot: string)
    ensures MeasureFiles(paths, disk, distRoot).Success? <==>
      forall j :: 0 <= j < |paths| ==> disk.measure(paths[j]).Success?
    ensures MeasureFiles(paths, disk, distRoot).Success? ==>
      var files := MeasureFiles(paths, disk, distRoot).value;
      |files| == |paths| &&
      forall j :: 0 <= j < |paths| ==>
        files[j] == FileReport(Relative(distRoot, paths[j]), disk.measure(paths[j]).value)
    decreases |paths|
  {
    if paths != [] {
      var init := paths[..|paths| - 1];
      MeasureFilesShape(init, disk, distRoot);
      if !(forall j :: 0 <= j < |init| ==> disk.measure(init[j]).Success?) {
        var j :| 0 <= j < |init| && !disk.measure(init[j]).Success?;
        assert paths[j] == init[j];
      }
    }
  }

  /** A bundle's report: its display name, its script files in listing order, its sums. */
  lemma BundleShape(bundlePath: string, disk: Disk, distRoot: string)
    requires Bundle(bundlePath, disk, distRoot).Success?
    ensures var b := Bundle(bundlePath, disk, distRoot).value;
      disk.children(bundlePath).Success? &&
      var paths := ScriptPaths(disk.children(bundlePath).value);
      b.name == BundleName(bundlePath) &&
      |b.files| == |paths| &&
      (forall j :: 0 <= j < |paths| ==>
        b.files[j].path == Relative(distRoot, paths[j]) &&
        disk.measure(paths[j]) == Success(b.files[j].sizes)) &&
      Consistent(b)
  {
    var paths := ScriptPaths(disk.children(bundlePath).value);
    MeasureFilesShape(paths, disk, distRoot);
    var b := Bundle(bundlePath, disk, distRoot).value;
    forall i | 0 <= i < 3 ensures b.sizes.At(i) == ColumnSum(b.files, i) {
      SumSizesColumns(b.files, i);
    }
  }

  /** A directory without script files is a valid, empty bundle. */
  lemma EmptyBundle(bundlePath: string, disk: Disk, distRoot: string)
    requires disk.children(bundlePath).Success?
    requires ScriptPaths(disk.children(bundlePath).value) == []
    ensures Bundle(bundlePath, disk, distRoot) == Success(BundleReport(BundleName(bundlePath), [], Sizes(0, 0, 0)))
  {
  }

  /** The report exists exactly when every declared bundle can be listed and measured. */
  lemma {:induction false} ReportSucceeds(bundles: seq<string>, disk: Disk, distRoot: string)
    ensures ReportOf(bundles, disk, distRoot).Success? <==>
      forall i :: 0 <= i < |bundles| ==> Bundle(bundles[i], disk, distRoot).Success?
    decreases |bundles|
  {
    if bundles != [] {
      var init := bundles[..|bundles| - 1];
      var last := bundles[|bundles| - 1];
      assert ReportOf(bundles, disk, distRoot).Success? <==>
        ReportOf(init, disk, distRoot).Success? && Bundle(last, disk, distRoot).Success?;
      ReportSucceeds(init, disk, distRoot);
      assert forall i :: 0 <= i < |init| ==> bundles[i] == init[i];
      if ReportOf(bundles, disk, distRoot).Success? {
        forall i | 0 <= i < |bundles| ensures Bundle(bundles[i], disk, distRoot).Success? {
          if i < |init| {
            assert Bundle(init[i], disk, distRoot).Success?;
          }
        }
      }
    }
  }

  /** One bundle report per declared path, in declaration order. */
  lemma {:induction false} ReportShape(bundles: seq<string>, disk: Disk, distRoot: string)
    requires ReportOf(bundles, disk, distRoot).Success?
    ensures |ReportOf(bundles, disk, distRoot).value| == |bundles|
    ensures forall i :: 0 <= i < |bundles| ==>
      Bundle(bundles[i], disk, distRoot) == Success(ReportOf(bundles, disk, distRoot).value[i])
    decreases |bundles|
  {
    if bundles != [] {
      var init := bundles[..|bundles| - 1];
      var prev := ReportOf(init, disk, distRoot);
      assert prev.Success?;
      ReportShape(init, disk, distRoot);
      var report := ReportOf(bundles, disk, distRoot).value;
      assert report == prev.value + [Bundle(bundles[|bundles| - 1], disk, distRoot).value];
      forall i | 0 <= i < |bundles|
        ensures Bundle(bundles[i], disk, distRoot) == Success(report[i])
      {
        if i < |init| {
          assert bundles[i] == init[i];
          assert report[i] == prev.value[i];
        }
      }
    }
  }

  /** Every bundle of a report satisfies the sum invariant and carries its display name. */
  lemma ReportConsistent(bundles: seq<string>, disk: Disk, distRoot: string)
    requires ReportOf(bundles, disk, distRoot).Success?
    ensures |ReportOf(bundles, disk, distRoot).value| == |bundles|
    ensures var report := ReportOf(bundles, disk, distRoot).value;
      forall i :: 0 <= i < |bundles| ==>
        Consistent(report[i]) && report[i].name == BundleName(bundles[i])
  {
    ReportShape(bundles, disk, distRoot);
    var report := ReportOf(bundles, disk, distRoot).value;
    forall i | 0 <= i < |bundles|
      ensures Consistent(report[i]) && report[i].name == BundleName(bundles[i])
    {
      BundleShape(bundles[i], disk, distRoot);
    }
  }

  /** A report's total of `sizes[i]` over all its bundles. */
  function Total(report: seq<BundleReport>, i: nat): nat
    requires i < 3
    decreases |report|
  {
    if report == [] then 0 else Total(report[..|report| - 1], i) + report[|report| - 1].sizes.At(i)
  }

  lemma TotalPrefix(report: seq<BundleReport>, b: nat, i: nat)
    requires b < |report| && i < 3
    ensures Total(report[..b + 1], i) == Total(report[..b], i) + report[b].sizes.At(i)
  {
    assert report[..b + 1][..b] == report[..b];
  }

  // ------------------------------------------------------------ SVG badges

  /** A file the report writes, named relative to the reports directory. */
  datatype Artefact = Artefact(fileName: string, content: string)

  const FontSize: nat := 14

  /** `parts.join("")` */
  function JoinStrings(parts: seq<string>): string
  {
    if parts == [] then "" else parts[0] + JoinStrings(parts[1..])
  }

  lemma JoinFour(a: string, b: string, c: string, d: string)
    ensures JoinStrings([a, b, c, d]) == a + b + c + d
  {
    assert [a, b, c, d][1..] == [b, c, d];
    assert [b, c, d][1..] == [c, d];
    assert [c, d][1..] == [d];
    assert JoinStrings([d]) == d by {
      assert [d][1..] == [];
    }
    assert JoinStrings([c, d]) == c + d;
    assert JoinStrings([b, c, d]) == b + c + d;
  }

  function SchemeFill(scheme: string): (fill: string)
    ensures fill == "white" <==> scheme == "dark"
    ensures fill != "white" ==> fill == "black"
  {
    if scheme == "dark" then "white" else "black"
  }

  lemma SmallNumerals()
    ensures NatToString(FontSize + 1) == "15" && NatToString(FontSize) == "14"
  {
    assert NatToString(1) == "1" && NatToString(5) == "5" && NatToString(4) == "4";
  }

  lemma OpenTag(width: string)
    ensures "<svg width=\"" + width + "\" height=\"" + NatToString(FontSize + 1) + "\" xmlns=\"http://www.w3.org/2000/svg\">" ==
      "<svg width=\"" + width + "\" height=\"15\" xmlns=\"http://www.w3.org/2000/svg\">"
  {
    SmallNumerals();
  }

  lemma StyleTag(fill: string)
    ensures "<style> text { fill: " + fill +
        "; font-family: Consolas, Monaco, \"Lucida Console\", monospace; font-size: " + NatToString(FontSize) + "px; }</style>" ==
      "<style> text { fill: " + fill +
       "; font-family: Consolas, Monaco, \"Lucida Console\", monospace; font-size: 14px; }</style>"
  {
    SmallNumerals();
  }

  lemma TextTag(text: string)
    ensures "<text y=\"" + NatToString(FontSize + 1 - 1) + "\">" + text + "</text>" == "<text y=\"14\">" + text + "</text>"
  {
    SmallNumerals();
  }

  /**
   * `generateTextSVG(filePath, scheme, text)`; `widthOf` prints `text.length * 14 * 0.6 + 1`.
   * The badge holds one text node, 15 pixels high with its baseline at 14,
   * white text for the dark scheme and black otherwise, the text verbatim.
   */
  function TextSvg(fileName: string, scheme: string, text: string, widthOf: nat -> string): (a: Artefact)
    ensures a.fileName == fileName
    ensures a.content ==
      ("<svg width=\"" + widthOf(|text|) + "\" height=\"15\" xmlns=\"http://www.w3.org/2000/svg\">") +
      ("<style> text { fill: " + SchemeFill(scheme) +
       "; font-family: Consolas, Monaco, \"Lucida Console\", monospace; font-size: 14px; }</style>") +
      ("<text y=\"14\">" + text + "</text>") + "</svg>"
  {
    var width := widthOf(|text|);
    var height := FontSize + 1;
    OpenTag(width);
    StyleTag(SchemeFill(scheme));
    TextTag(text);
    JoinFour(
      "<svg width=\"" + width + "\" height=\"15\" xmlns=\"http://www.w3.org/2000/svg\">",
      "<style> text { fill: " + SchemeFill(scheme) +
       "; font-family: Consolas, Monaco, \"Lucida Console\", monospace; font-size: 14px; }</style>",
      "<text y=\"14\">" + text + "</text>",
      "</svg>");
    Artefact(fileName, JoinStrings([
      "<svg width=\"" + width + "\" height=\"" + NatToString(height) + "\" xmlns=\"http://www.w3.org/2000/svg\">",
      "<style> text { fill: " + SchemeFill(scheme) +
        "; font-family: Consolas, Monaco, \"Lucida Console\", monospace; font-size: " + NatToString(FontSize) + "px; }</style>",
      "<text y=\"" + NatToString(height - 1) + "\">" + text + "</text>",
      "</svg>"
    ]))
  }

  /** The light and the dark badge of one name, in that order. */
  function SchemePair(name: string, text: string, widthOf: nat -> string): (pair: seq<Artefact>)
    ensures |pair| == 2
  {
    [TextSvg(name + "-light.svg", "light", text, widthOf), TextSvg(name + "-dark.svg", "dark", text, widthOf)]
  }

  /** The per-bundle badges of `report`, each showing the bundle's compressed size. */
  function Badges(report: seq<BundleReport>, widthOf: nat -> string): (files: seq<Artefact>)
    ensures |files| == 2 * |report|
  {
    if report == [] then []
    else
      var last := report[|report| - 1];
      Badges(report[..|report| - 1], widthOf) + SchemePair(last.name, HumanFileSize(last.sizes.compressed), widthOf)
  }

  lemma BadgesStep(report: seq<BundleReport>, widthOf: nat -> string, b: nat)
    requires b < |report|
    ensures Badges(report[..b + 1], widthOf) ==
      Badges(report[..b], widthOf) + SchemePair(report[b].name, HumanFileSize(report[b].sizes.compressed), widthOf)
  {
    assert report[..b + 1][..b] == report[..b];
  }

  /** Bundle `i` owns badges `2 * i` (light) and `2 * i + 1` (dark). */
  lemma {:induction false} BadgesAt(report: seq<BundleReport>, widthOf: nat -> string, i: nat)
    requires i < |report|
    ensures Badges(report, widthOf)[2 * i] ==
      TextSvg(report[i].name + "-light.svg", "light", HumanFileSize(report[i].sizes.compressed), widthOf)
    ensures Badges(report, widthOf)[2 * i + 1] ==
      TextSvg(report[i].name + "-dark.svg", "dark", HumanFileSize(report[i].sizes.compressed), widthOf)
  {
    var init := report[..|report| - 1];
    var last := report[|report| - 1];
    var pair := SchemePair(last.name, HumanFileSize(last.sizes.compressed), widthOf);
    var all := Badges(report, widthOf);
    assert all == Badges(init, widthOf) + pair;
    if i < |report| - 1 {
      BadgesAt(init, widthOf, i);
      assert init[i] == report[i];
      assert all[2 * i] == Badges(init, widthOf)[2 * i];
      assert all[2 * i + 1] == Badges(init, widthOf)[2 * i + 1];
    } else {
      var text := HumanFileSize(last.sizes.compressed);
      assert pair == [TextSvg(last.name + "-light.svg", "light", text, widthOf), TextSvg(last.name + "-dark.svg", "dark", text, widthOf)];
      assert all[2 * i] == pair[0] && all[2 * i + 1] == pair[1];
    }
  }

  /** The inner `for (const scheme of ["light", "dark"])` loop: one badge per scheme, appended. */
  method WriteSchemes(files: seq<Artefact>, name: string, text: string, widthOf: nat -> string)
    returns (written: seq<Artefact>)
    ensures written == files + SchemePair(name, text, widthOf)
  {
    var schemes := ["light", "dark"];
    written := files;
    for s := 0 to |schemes|
      invariant |written| == |files| + s && written[..|files|] == files
      invariant forall j :: 0 <= j < s ==>
        written[|files| + j] == TextSvg(name + "-" + schemes[j] + ".svg", schemes[j], text, widthOf)
    {
      written := written + [TextSvg(name + "-" + schemes[s] + ".svg", schemes[s], text, widthOf)];
    }
    assert name + "-" + schemes[0] + ".svg" == name + "-light.svg";
    assert name + "-" + schemes[1] + ".svg" == name + "-dark.svg";
    assert written == written[..|files|] + written[|files|..];
  }

  /**
   * `generateSVGs`: a light and a dark badge per bundle, in report order, each
   * showing the bundle's compressed size; when there is more than one bundle,
   * a light and a dark `total` badge showing the sum of the compressed sizes.
   */
  method GenerateSVGs(report: seq<BundleReport>, widthOf: nat -> string) returns (files: seq<Artefact>)
    ensures files == Badges(report, widthOf) +
      (if |report| > 1 then SchemePair("total", HumanFileSize(Total(report, 2)), widthOf) else [])
  {
    var total: nat := 0;
    files := [];
    for b := 0 to |report|
      invariant total == Total(report[..b], 2)
      invariant files == Badges(report[..b], widthOf)
    {
      var bundle := report[b];
      TotalPrefix(report, b, 2);
      BadgesStep(report, widthOf, b);
      var size := bundle.sizes.compressed;
      total := total + size;
      var sizeContent := HumanFileSize(size);
      files := WriteSchemes(files, bundle.name, sizeContent, widthOf);
    }
    assert report[..|report|] == report;
    if |report| > 1 {
      files := WriteSchemes(files, "total", HumanFileSize(total), widthOf);
    }
  }

  // ----------------------------------------------------------- JSON report

  function SizesJson(s: Sizes): Json
  {
    JArr([JNum(s.raw), JNum(s.minified), JNum(s.compressed)])
  }

  function FileJson(f: FileReport): Json
  {
    JObj([Member("path", JStr(f.path)), Member("sizes", SizesJson(f.sizes))])
  }

  function FilesJson(files: seq<FileReport>): (items: seq<Json>)
    ensures |items| == |files|
  {
    if files == [] then [] else [FileJson(files[0])] + FilesJson(files[1..])
  }

  function BundleJson(b: BundleReport): Json
  {
    JObj([Member("name", JStr(b.name)), Member("files", JArr(FilesJson(b.files))), Member("sizes", SizesJson(b.sizes))])
  }

  function BundlesJson(report: seq<BundleReport>): (items: seq<Json>)
    ensures |items| == |report|
  {
    if report == [] then [] else [BundleJson(report[0])] + BundlesJson(report[1..])
  }

  /** Reads a size triple back: an array of exactly three numbers. */
  function SizesFromJson(j: Json): Option<Sizes>
  {
    if j.JArr? && |j.items| == 3 && j.items[0].JNum? && j.items[1].JNum? && j.items[2].JNum? then
      Some(Sizes(j.items[0].n, j.items[1].n, j.items[2].n))
    else None
  }

  /** Reads a file object back; its keys must be `path` then `sizes`. */
  function FileFromJson(j: Json): Option<FileReport>
  {
    if j.JObj? && |j.members| == 2 && j.members[0].key == "path" && j.members[0].value.JStr?
      && j.members[1].key == "sizes" then
      match SizesFromJson(j.members[1].value)
      case Some(s) => Some(FileReport(j.members[0].value.s, s))
      case None => None
    else None
  }

  function FilesFromJson(items: seq<Json>): Option<seq<FileReport>>
  {
    if items == [] then Some([])
    else
      match (FileFromJson(items[0]), FilesFromJson(items[1..]))
      case (Some(f), Some(fs)) => Some([f] + fs)
      case _ => None
  }

  /** Reads a bundle object back; its keys must be `name`, `files`, then `sizes`. */
  function BundleFromJson(j: Json): Option<BundleReport>
  {
    if j.JObj? && |j.members| == 3 && j.members[0].key == "name" && j.members[0].value.JStr?
      && j.members[1].key == "files" && j.members[1].value.JArr? && j.members[2].key == "sizes" then
      match (FilesFromJson(j.members[1].value.items), SizesFromJson(j.members[2].value))
      case (Some(fs), Some(s)) => Some(BundleReport(j.members[0].value.s, fs, s))
      case _ => None
    else None
  }

  function BundlesFromJson(items: seq<Json>): Option<seq<BundleReport>>
  {
    if items == [] then Some([])
    else
      match (BundleFromJson(items[0]), BundlesFromJson(items[1..]))
      case (Some(b), Some(bs)) => Some([b] + bs)
      case _ => None
  }

  /** Reads the text of `size-report.json` back into a report. */
  function DecodeReport(text: string): Option<seq<BundleReport>>
  {
    match Parse(text)
    case Some(JArr(items)) => BundlesFromJson(items)
    case _ => None
  }

  lemma {:induction false} FilesJsonRoundTrip(files: seq<FileReport>)
    ensures FilesFromJson(FilesJson(files)) == Some(files)
    decreases |files|
  {
    if files != [] {
      FilesJsonRoundTrip(files[1..]);
      assert FilesJson(files)[1..] == FilesJson(files[1..]);
      assert [files[0]] + files[1..] == files;
    }
  }

  lemma {:induction false} BundlesJsonRoundTrip(report: seq<BundleReport>)
    ensures BundlesFromJson(BundlesJson(report)) == Some(report)
    decreases |report|
  {
    if report != [] {
      FilesJsonRoundTrip(report[0].files);
      BundlesJsonRoundTrip(report[1..]);
      assert BundlesJson(report)[1..] == BundlesJson(report[1..]);
      assert [report[0]] + report[1..] == report;
    }
  }

  /**
   * `generateJSON`: `size-report.json` holding the compact JSON text of the
   * report, bundles as `{"name", "files", "sizes"}` and files as
   * `{"path", "sizes"}` in that key order; the text decodes back to the report.
   */
  function GenerateJSON(report: seq<BundleReport>): (a: Artefact)
    ensures a.fileName == "size-report.json"
    ensures DecodeReport(a.content) == Some(report)
  {
    var doc := JArr(BundlesJson(report));
    ParseStringify(doc);
    BundlesJsonRoundTrip(report);
    Artefact("size-report.json", Stringify(doc))
  }
}
