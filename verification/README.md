# golog logger factory, modelled in Dafny

`golog` builds a `log/slog` logger from a small configuration: a mode, a log
path and a minimum level. Two things in it carry logic of their own:

- the `ReplaceAttr` closure installed in both handlers, which rewrites the
  `time` attribute into the layout `2006-01-02 15:04:05` and the `source`
  attribute into the one-line summary `"<package> <base name>:<line>"`, and
  passes every other attribute through untouched;
- the choice of pipeline by mode: `"prod"` writes JSON into a rotating log file
  (10 MB per file, three backups, 28 days, compressed), while `"dev"` and every
  other mode write coloured text to standard output.

The model is functional. `logger.dfy` holds the closure, the factory and the
rotation policy (module `Logger`). The standard-library routines the closure
calls are modelled in their own modules, each with a partner that reads its
output back:

- `go_strings.dfy` (`GoStrings`): `strings.Split` on one character, with `Join` as its inverse;
- `file_path.dfy` (`FilePath`): `filepath.Base` for '/'-separated paths, with an independent characterisation of the last path element;
- `decimal.dfy` (`Decimal`): `%d` and the zero-padded fields of time layouts, with parsers;
- `time_format.dfy` (`TimeFormat`): the layout rendering of a civil time, with a parser.

`logger_examples.dfy` (`LoggerExamples`) works out the source summary of two concrete call sites in full.

The package label follows the code, not the name. It is the text before the
first '.' of the function identifier. So a function of `github.com/x/y` is
labelled `github`, and an identifier without a dot (the empty one included) is
labelled `unknown`.

Two facts about the factory shape the model:

- The mode is any string (Go's `type Mode string`, logger.go:15); only "dev"
  and "prod" are named.
- The rotating writer is built for every mode (logger.go:30); only the "prod"
  pipeline uses it.

## Model

| member | source | states |
|---|---|---|
| GoStrings.Split | logger.go:40 | Splitting on a character yields one more piece than there are occurrences of it; no piece contains it; joining the pieces with it gives the input back (so "" splits into one piece) |
| GoStrings.SplitJoin | logger.go:40 | Splitting a join of separator-free pieces returns exactly those pieces |
| Logger.PackageLabel | logger.go:40-44 | If the function identifier contains a '.', the label contains none and the label followed by '.' is a prefix of the identifier; if it contains no '.', the empty identifier included, the label is "unknown" |
| Logger.LabelOfQualifiedName | logger.go:40-44 | For every dot-free `pkg` and every `rest`, the label of `pkg + "." + rest` is `pkg`: the cut is at the first dot |
| Logger.LabelOfImportPath | logger.go:40-44 | "github.com/x/y.F" is labelled "github" |
| FilePath.Base | logger.go:46 | The base name is never empty; it is "." for the empty path and "/" for a path of separators only; when the path has an element, it contains no '/' |
| FilePath.BaseOfSplit | logger.go:46 | For any directory (empty or ending in '/'), any non-empty name without '/' and any run of trailing separators, the base name of their concatenation is the name |
| FilePath.BaseIsLastElement | logger.go:46 | Every path with an element splits as directory + base name + trailing separators |
| Decimal.NatToDecimal | logger.go:46 | The numeral is a non-empty digit string, has no leading zero, and has one digit exactly for numbers below 10 |
| Decimal.FormatInt | logger.go:46 | The `%d` rendering is an optional '-' and at least one digit; it starts with '-' exactly for negative numbers and has no leading zero except for 0 itself |
| Decimal.ParseFormatInt | logger.go:46 | The `%d` rendering of any integer parses back to that integer |
| Decimal.FormatIntFortyTwo | logger.go:46 | The line number 42 renders as "42" |
| Logger.FormatSource | logger.go:46-47 | In the source summary the label precedes the first space (when it has none), the base name lies between that space and the last ':', and the text after the last ':' is exactly the `%d` numeral of the line, which parses back to it; together these fix the summary for every path, "" and "/" included |
| Logger.SourceOfQualifiedFunction | logger.go:38-47 | A call site in `pkg.rest` in file `dir/name` at any line is summarised as `pkg name:line` |
| Logger.SourceOfUnqualifiedFunction | logger.go:38-47 | A call site in a function identifier without a dot is summarised as `unknown name:line` |
| LoggerExamples.BaseOfHandlerPath | logger.go:46 | The base name of "/a/b/handler.go" is "handler.go" |
| LoggerExamples.QualifiedCallSiteExample | logger.go:38-47 | A call site in "pkgname.FuncName" in "/a/b/handler.go" at line 42 is summarised as "pkgname handler.go:42" |
| LoggerExamples.UnqualifiedCallSiteExample | logger.go:38-47 | A call site in "FuncName" in "/a/b/handler.go" at line 42 is summarised as "unknown handler.go:42" |
| Decimal.PadInt | logger.go:36 | A field renders as an optional '-' followed by digits that parse back to its magnitude; the digits are the numeral of the magnitude left-padded with '0' to `width`, so there are exactly `width` of them when it fits and no padding when it does not |
| Decimal.ZeroPadded | logger.go:36 | The left-padded numeral of a natural number is all digits, parses back to the number, and has `width` digits when the number is below 10^width, otherwise exactly as many as its numeral |
| TimeFormat.Format | logger.go:35-36 | A valid civil time with a year from 0 to 9999 renders in the shape of "2006-01-02 15:04:05" and parses back to the same time |
| TimeFormat.FormatInjective | logger.go:35-36 | Distinct valid times in those years render differently |
| TimeFormat.ReferenceTimeRendersLayout | logger.go:36 | Go's reference time renders as the layout string itself |
| Logger.ReplaceAttr | logger.go:32-50 | The key never changes; any key other than "time" and "source" leaves the attribute unchanged; "time" and "source" values become string values of their renderings |
| Logger.ReplaceAttrOrPanic | logger.go:33-39 | The closure panics exactly when a value under the "time" key is not a time or a value under the "source" key is not a source location (the negation of `WellShaped`); otherwise it returns what `ReplaceAttr` computes |
| Logger.ReplaceAttrIgnoresGroups | logger.go:32 | The result does not depend on the group path passed in |
| Logger.ReplaceTimeReadsBack | logger.go:34-36 | A rewritten time attribute holds a string of the layout's shape that reads back as the original civil time |
| Logger.RotatedLogFile | logger.go:78-86 | The rotating writer is bound to the given path with 10 MB files, 3 backups, 28 days and compression on |
| Logger.InitLogger | logger.go:28-76 | Both pipelines add the source, filter at the configured level and install `ReplaceAttr`; the JSON file pipeline is chosen exactly when the mode is "prod", and then writes through the fixed rotation policy on the configured path |
| Logger.UnrecognisedModeIsDev | logger.go:64-73 | Every mode other than "prod" builds the very pipeline "dev" builds: console output with the same options |
| Logger.ConsoleIgnoresLogPath | logger.go:64-73 | The console pipeline does not depend on the log path |

## Left out

- Instant-to-civil conversion and time zones: a time value is an abstract civil record (year, month, day, hour, minute, second) already in the wanted zone.
- The panics of `a.Value.Time()` and of the type assertion `a.Value.Any().(*slog.Source)` are the `Panicked` outcome of `ReplaceAttrOrPanic`; `ReplaceAttr` itself requires `WellShaped`, the condition under which neither panics.
- `slog.New`, `tint.NewHandler`, `slog.NewJSONHandler`, `lumberjack.Logger` and `os.Stdout` are foreign code and I/O; the handlers appear only as the `Pipeline` value.
- Level filtering, JSON encoding, coloured rendering, file rotation, compression and the logger's concurrency safety belong to those libraries.
- FilePath.Base: models '/' as the only separator and no volume names, as on Unix; Windows paths are not modelled.
- TimeFormat.Format: the read-back is stated for years 0 to 9999 only; other years render with more digits or a '-' (modelled in `PadInt`) but are not parsed back.
- Logger.FormatSource: the label is found before the first space only when it contains no space.
- Go's 64-bit `int` for the line number is an unbounded integer; `%d` prints every 64-bit value the same way.
- Go strings are byte sequences; here a string is a sequence of Unicode characters. Splitting on the ASCII characters '.', '/' and ':' gives the same pieces for valid UTF-8, but byte strings that are not valid UTF-8 cannot be represented.
