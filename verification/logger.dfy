/**
  The logger factory of `golog`: the attribute transform it installs in
  both handlers (rewriting the time and source attributes) and the choice of
  output pipeline by mode, with the fixed rotation policy of the log file.
 */
module Logger {
  import opened GoStrings
  import opened FilePath
  import opened Decimal
  import TimeFormat

  /** Keys slog gives the built-in time and source attributes. */
  const TimeKey: string := "time"
  const SourceKey: string := "source"

  /** What slog reports about the call site of a record. */
  datatype Source = Source(functionName: string, file: string, line: int)

  /** The payload of an attribute, reduced to the kinds the transform
      distinguishes plus a few it passes through. */
  datatype Value =
    | StringV(str: string)
    | IntV(num: int)
    | BoolV(flag: bool)
    | TimeV(time: TimeFormat.CivilTime)
    | SourceV(source: Source)

  datatype Attr = Attr(key: string, value: Value)

  /** The shapes slog supplies under the reserved keys: a time under the time
      key and a source location under the source key. */
  predicate WellShaped(a: Attr) {
    && (a.key == TimeKey ==> a.value.TimeV?)
    && (a.key == SourceKey ==> a.value.SourceV?)
  }

  const UnknownPackage: string := "unknown"

  /** The text before the first '.' of a function identifier, or "unknown"
      when the identifier has no '.' (the empty identifier included). */
  function PackageLabel(functionName: string): (pkg: string)
    ensures '.' in functionName ==> '.' !in pkg && pkg + "." <= functionName
    ensures '.' !in functionName ==> pkg == UnknownPackage
  {
    var parts := Split(functionName, '.');
    if |parts| > 1 then
      assert functionName == parts[0] + "." + Join(parts[1..], '.');
      parts[0]
    else UnknownPackage
  }

  /** The label of `pkg + "." + rest` is `pkg` itself, for every `pkg` free of
      dots and every `rest`, dots in `rest` included. */
  lemma LabelOfQualifiedName(pkg: string, rest: string)
    requires '.' !in pkg
    ensures PackageLabel(pkg + "." + rest) == pkg
  {
    var f := pkg + "." + rest;
    assert f[|pkg|] == '.';
    var got := PackageLabel(f);
    assert got + "." <= f;
    assert forall k :: 0 <= k < |pkg| ==> f[k] == pkg[k];
    assert forall k :: 0 <= k < |got| ==> f[k] == got[k];
    assert |got| == |pkg|;
    assert got == f[..|got|];
    assert pkg == f[..|pkg|];
  }

  /** How a summary reads back: the label runs up to the first space (when
      the label has none), the base name lies between that space and the last
      ':', and the text after the last ':' is the `%d` numeral of the line
      number, which parses back to it. */
  predicate ReadsBackAs(r: string, pkg: string, base: string, line: int) {
    && pkg + " " <= r
    && (' ' !in pkg ==> FirstIndex(r, ' ') == |pkg|)
    && var colon := AfterLast(r, ':');
      && |pkg| + 1 < colon
      && r[|pkg| + 1..colon - 1] == base
      && r[colon..] == FormatInt(line)
      && IsDecimal(r[colon..])
      && ParseInt(r[colon..]) == line
  }

  /** `fmt.Sprintf("%s %s:%d", pkg, filepath.Base(file), line)`: the label,
      the base name and the line can all be read back from the summary. */
  function FormatSource(src: Source): (r: string)
    ensures ReadsBackAs(r, PackageLabel(src.functionName), Base(src.file), src.line)
  {
    var pkg, base := PackageLabel(src.functionName), Base(src.file);
    var r := pkg + " " + base + ":" + FormatInt(src.line);
    SummaryReadsBack(pkg, base, src.line, r);
    r
  }

  /** The summary fields read back for any label, base name and line. */
  lemma SummaryReadsBack(pkg: string, base: string, line: int, r: string)
    requires r == pkg + " " + base + ":" + FormatInt(line)
    ensures ReadsBackAs(r, pkg, base, line)
  {
    var num := FormatInt(line);
    FormatIntAlphabet(line, ':');
    SummaryFields(pkg, base, num);
    var colon := AfterLast(r, ':');
    assert r[colon..] == num;
    ParseFormatInt(line);
  }

  /** Where the three fields of `pkg + " " + base + ":" + num` can be found
      again when `num` has no ':'. */
  lemma SummaryFields(pkg: string, base: string, num: string)
    requires ':' !in num
    ensures var r := pkg + " " + base + ":" + num;
      && pkg + " " <= r
      && (' ' !in pkg ==> FirstIndex(r, ' ') == |pkg|)
    ensures var r := pkg + " " + base + ":" + num;
      var colon := AfterLast(r, ':');
      && |pkg| + 1 < colon
      && r[|pkg| + 1..colon - 1] == base
      && r[colon..] == num
  {
    var r := pkg + " " + base + ":" + num;
    assert r == Concat3(pkg, ' ', base, ':', num);
    Concat3Fields(pkg, ' ', base, ':', num);
    AfterLastAt(pkg + " " + base, num, ':');
    if ' ' !in pkg {
      FirstIndexAt(pkg, base + ":" + num, ' ');
    }
  }

  /** The `ReplaceAttr` closure: the time value becomes its layout rendering,
      the source value becomes its one-line summary, and every other attribute
      is returned as it came. The group path is not consulted. */
  function ReplaceAttr(groups: seq<string>, a: Attr): (r: Attr)
    requires WellShaped(a)
    ensures r.key == a.key
    ensures a.key != TimeKey && a.key != SourceKey ==> r == a
    ensures a.key == TimeKey ==> r.value == StringV(TimeFormat.Format(a.value.time))
    ensures a.key == SourceKey ==> r.value == StringV(FormatSource(a.value.source))
  {
    if a.key == TimeKey then a.(value := StringV(TimeFormat.Format(a.value.time)))
    else if a.key == SourceKey then a.(value := StringV(FormatSource(a.value.source)))
    else a
  }

  /** What calling the closure does: it returns an attribute, or it panics. */
  datatype Outcome = Returned(attr: Attr) | Panicked

  /** The closure on any attribute: `a.Value.Time()` panics unless the value
      under the time key is a time, and the type assertion to `*slog.Source`
      panics unless the value under the source key is a source location.
      It returns exactly on the well-shaped attributes, and then returns what
      `ReplaceAttr` computes. */
  function ReplaceAttrOrPanic(groups: seq<string>, a: Attr): (r: Outcome)
    ensures r.Returned? <==> WellShaped(a)
    ensures r.Returned? ==> r.attr == ReplaceAttr(groups, a)
  {
    if a.key == TimeKey then
      if a.value.TimeV? then Returned(ReplaceAttr(groups, a)) else Panicked
    else if a.key == SourceKey then
      if a.value.SourceV? then Returned(ReplaceAttr(groups, a)) else Panicked
    else Returned(a)
  }

  /** The transform does not look at the group path it is given. */
  lemma ReplaceAttrIgnoresGroups(groups: seq<string>, other: seq<string>, a: Attr)
    requires WellShaped(a)
    ensures ReplaceAttr(groups, a) == ReplaceAttr(other, a)
  {
  }

  /** A valid time under the time key, with a year of at most four digits,
      comes out as a string of the layout's shape that reads back as the
      same time. */
  lemma ReplaceTimeReadsBack(groups: seq<string>, a: Attr)
    requires a.key == TimeKey && a.value.TimeV?
    requires TimeFormat.Valid(a.value.time) && 0 <= a.value.time.year <= 9999
    ensures var r := ReplaceAttr(groups, a);
      && r.value.StringV?
      && TimeFormat.HasLayoutShape(r.value.str)
      && TimeFormat.Parse(r.value.str) == a.value.time
  {
  }

  /** The summary of a call site in a qualified function: the text before the
      function's first '.', a space, the file's last element, ':' and the line.
      `LoggerExamples.QualifiedCallSiteExample` is an instance. */
  lemma SourceOfQualifiedFunction(pkg: string, rest: string, dir: string, name: string, trail: string, line: int)
    requires '.' !in pkg
    requires SplitsAs(dir + name + trail, dir, name, trail)
    ensures FormatSource(Source(pkg + "." + rest, dir + name + trail, line))
         == pkg + " " + name + ":" + FormatInt(line)
  {
    LabelOfQualifiedName(pkg, rest);
    BaseOfSplit(dir, name, trail);
  }

  /** The summary of a call site in a function identifier without a dot, the
      empty one included. `LoggerExamples.UnqualifiedCallSiteExample` is an
      instance. */
  lemma SourceOfUnqualifiedFunction(functionName: string, dir: string, name: string, trail: string, line: int)
    requires '.' !in functionName
    requires SplitsAs(dir + name + trail, dir, name, trail)
    ensures FormatSource(Source(functionName, dir + name + trail, line))
         == UnknownPackage + " " + name + ":" + FormatInt(line)
  {
    BaseOfSplit(dir, name, trail);
  }

  /** The summary is determined by the label, the base name and the numeral. */
  lemma SummaryOf(src: Source, pkg: string, base: string, num: string)
    requires PackageLabel(src.functionName) == pkg
    requires Base(src.file) == base
    requires FormatInt(src.line) == num
    ensures FormatSource(src) == pkg + " " + base + ":" + num
  {
  }

  /** A full import path is cut at its first dot, not at its last one. */
  lemma LabelOfImportPath()
    ensures PackageLabel("github.com/x/y.F") == "github"
  {
    assert "github.com/x/y.F" == "github" + "." + "com/x/y.F";
    LabelOfQualifiedName("github", "com/x/y.F");
  }

  /** The modes the factory recognises. */
  const Dev: string := "dev"
  const Prod: string := "prod"

  datatype LogConfig = LogConfig(mode: string, logPath: string, level: int)

  /** The settings of the rotating file writer: size in megabytes, age in days. */
  datatype RotationPolicy =
    RotationPolicy(filename: string, maxSizeMB: nat, maxBackups: nat, maxAgeDays: nat, compress: bool)

  /** The rotating writer for `logPath`: 10 MB files, three backups, 28 days, compressed. */
  function RotatedLogFile(logPath: string): (w: RotationPolicy)
    ensures w.filename == logPath
    ensures w.maxSizeMB == 10 && w.maxBackups == 3 && w.maxAgeDays == 28 && w.compress
  {
    RotationPolicy(logPath, 10, 3, 28, true)
  }

  /** Handler options: whether the source is added, the minimum level, and
      whether the `ReplaceAttr` closure is installed. */
  datatype HandlerOptions = HandlerOptions(addSource: bool, level: int, replaceAttr: bool)

  /** Coloured text on standard output, or JSON lines into the rotating file. */
  datatype Pipeline =
    | Console(options: HandlerOptions)
    | JsonFile(file: RotationPolicy, options: HandlerOptions)

  /** The factory: "prod" writes JSON to the rotating file; "dev" and every
      other mode write coloured text to standard output. Both add the source
      location, filter at the configured level and install `ReplaceAttr`. */
  function InitLogger(cfg: LogConfig): (p: Pipeline)
    ensures p.options == HandlerOptions(true, cfg.level, true)
    ensures p.JsonFile? <==> cfg.mode == Prod
    ensures p.JsonFile? ==> p.file == RotatedLogFile(cfg.logPath)
  {
    var logFile := RotatedLogFile(cfg.logPath);
    var localOptions := HandlerOptions(true, cfg.level, true);
    var prodOptions := HandlerOptions(true, cfg.level, true);
    if cfg.mode == Dev then Console(localOptions)
    else if cfg.mode == Prod then JsonFile(logFile, prodOptions)
    else Console(localOptions)
  }

  /** An unrecognised mode builds exactly the logger "dev" builds. */
  lemma UnrecognisedModeIsDev(cfg: LogConfig)
    requires cfg.mode != Prod
    ensures InitLogger(cfg) == InitLogger(cfg.(mode := Dev))
    ensures InitLogger(cfg) == Console(HandlerOptions(true, cfg.level, true))
  {
  }

  /** The console pipeline does not depend on the log path. */
  lemma ConsoleIgnoresLogPath(cfg: LogConfig, otherPath: string)
    requires cfg.mode != Prod
    ensures InitLogger(cfg) == InitLogger(cfg.(logPath := otherPath))
  {
  }
}
