/**
 * The reader for one entry of a pacman repository database: the lines of a `desc`
 * file, made of `%SECTION%` header lines each followed by value lines.
 */
module Database {
  import opened Wrappers
  import opened Pacman
  import opened GoStrings

  /** The file name suffix of the one database format the library can read. */
  const DatabaseSuffix: string := ".db.tar.gz"

  /** HasDatabaseFormat holds of a file name exactly when it ends in the database suffix. */
  predicate HasDatabaseFormat(filename: string)
  {
    HasSuffix(filename, DatabaseSuffix)
  }

  /** Every name made of a stem and the suffix has the database format. */
  lemma DatabaseFormatNames(stem: string)
    ensures HasDatabaseFormat(stem + DatabaseSuffix)
  {
    var f := stem + DatabaseSuffix;
    assert f[|f| - |DatabaseSuffix|..] == DatabaseSuffix;
  }

  /** ... and every name with the database format is such a stem and the suffix. */
  lemma DatabaseFormatStem(filename: string)
    requires HasDatabaseFormat(filename)
    ensures |filename| >= 10
    ensures filename == filename[..|filename| - 10] + DatabaseSuffix
  {
  }

  /** Why an entry could not be read. */
  datatype ParseError =
    | BadBuildDate(line: string)    // "cannot parse build time"
    | BadSize(line: string)         // "cannot parse size value"
    | UnknownField(state: string)   // "unknown field ... in database entry"

  /** The two variables of the scan loop: the current section and the record read so far. */
  datatype Scan = Scan(state: string, info: Package)

  /** A trimmed line that starts and ends with the `%` delimiter selects a section. */
  predicate IsHeader(line: string)
  {
    HasPrefix(line, "%") && HasSuffix(line, "%")
  }

  /** The section a header line selects: its text without the delimiters, lower-cased. */
  function SectionOf(line: string): string
  {
    ToLower(Trim(line, "%"))
  }

  /** The case labels of the switch on the current section. */
  datatype Field =
    | FilenameField | NameField | VersionField | DescField | BaseField | UrlField
    | BuildDateField | PackagerField | CSizeField | ArchField | LicenseField
    | DependsField | OptDependsField | MakeDependsField | CheckDependsField | BackupField
    | ReplacesField | ProvidesField | ConflictsField | GroupsField
    | IgnoredField     // isize, md5sum, pgpsig, sha256sum
    | UnknownSection   // the default case

  /** The case label that a section name selects. */
  function FieldOf(state: string): Field
  {
    if state == "filename" then FilenameField
    else if state == "name" then NameField
    else if state == "version" then VersionField
    else if state == "desc" then DescField
    else if state == "base" then BaseField
    else if state == "url" then UrlField
    else if state == "builddate" then BuildDateField
    else if state == "packager" then PackagerField
    else if state == "csize" then CSizeField
    else if state == "arch" then ArchField
    else if state == "license" then LicenseField
    else if state == "depends" then DependsField
    else if state == "optdepends" then OptDependsField
    else if state == "makedepends" then MakeDependsField
    else if state == "checkdepends" then CheckDependsField
    else if state == "backup" then BackupField
    else if state == "replaces" then ReplacesField
    else if state == "provides" then ProvidesField
    else if state == "conflicts" then ConflictsField
    else if state == "groups" then GroupsField
    else if state == "isize" || state == "md5sum" || state == "pgpsig" || state == "sha256sum" then IgnoredField
    else UnknownSection
  }

  /** The error the switch returns for a value line under the case label `f` of `state`, if any. */
  function Refusal(f: Field, state: string, line: string): Option<ParseError>
  {
    match f
    case BuildDateField => if ParseInt(line).None? then Some(BadBuildDate(line)) else None
    case CSizeField => if ParseUint(line).None? then Some(BadSize(line)) else None
    case UnknownSection => Some(UnknownField(state))
    case _ => None
  }

  /** The assignment the switch makes for a value line it accepts under the case label `f`. */
  function Put(info: Package, f: Field, line: string, dbpath: string, join: (string, string) -> string): Package
  {
    match f
    case FilenameField => info.(filename := join(dbpath, line))
    case NameField => info.(name := line)
    case VersionField => info.(version := line)
    case DescField => info.(description := line)
    case BaseField => info.(base := line)
    case UrlField => info.(url := line)
    case BuildDateField => info.(buildDate := Some(ParseInt(line).GetOr(0)))
    case PackagerField => info.(packager := line)
    case CSizeField => info.(size := ParseUint(line).GetOr(0))
    case ArchField => info.(arch := line)
    case LicenseField => info.(license := line)
    case DependsField => info.(depends := info.depends + [line])
    case OptDependsField => info.(optionalDepends := info.optionalDepends + [line])
    case MakeDependsField => info.(makeDepends := info.makeDepends + [line])
    case CheckDependsField => info.(checkDepends := info.checkDepends + [line])
    case BackupField => info.(backups := info.backups + [line])
    case ReplacesField => info.(replacements := info.replacements + [line])
    case ProvidesField => info.(provisions := info.provisions + [line])
    case ConflictsField => info.(conflicts := info.conflicts + [line])
    case GroupsField => info.(groups := info.groups + [line])
    case IgnoredField => info
    case UnknownSection => info
  }

  /** One iteration of the scan loop over a raw input line. */
  function Step(c: Scan, raw: string, dbpath: string, join: (string, string) -> string): Result<Scan, ParseError>
  {
    var line := TrimSpace(raw);
    if line == "" then Ok(c)
    else if IsHeader(line) then Ok(c.(state := SectionOf(line)))
    else
      var f := FieldOf(c.state);
      match Refusal(f, c.state, line)
      case Some(e) => Err(e)
      case None => Ok(c.(info := Put(c.info, f, line, dbpath, join)))
  }

  /** The scan over a prefix of the input; the first error stops it. */
  function Run(lines: seq<string>, dbpath: string, join: (string, string) -> string): Result<Scan, ParseError>
  {
    if lines == [] then Ok(Scan("", Blank(DatabaseOrigin)))
    else
      match Run(lines[..|lines| - 1], dbpath, join)
      case Err(e) => Err(e)
      case Ok(c) => Step(c, lines[|lines| - 1], dbpath, join)
  }

  /** The entry that the lines describe, or the error that stops reading them. */
  function Entry(lines: seq<string>, dbpath: string, join: (string, string) -> string): Result<Package, ParseError>
  {
    match Run(lines, dbpath, join)
    case Err(e) => Err(e)
    case Ok(c) => Ok(c.info)
  }

  /**
   * readDatabasePkgInfo over the lines of the entry. `join(dbpath, line)` stands for
   * `path.Join(path.Dir(dbpath), line)`.
   */
  method ReadDatabasePkgInfo(lines: seq<string>, dbpath: string, join: (string, string) -> string)
    returns (r: Result<Package, ParseError>)
    ensures r == Entry(lines, dbpath, join)
  {
    var info := Blank(DatabaseOrigin);
    var state := "";
    var i := 0;
    while i < |lines|
      invariant 0 <= i <= |lines|
      invariant Run(lines[..i], dbpath, join) == Ok(Scan(state, info))
    {
      RunNext(lines, i, Scan(state, info), dbpath, join);
      var line := TrimSpace(lines[i]);
      i := i + 1;
      if line == "" {
        continue;
      }
      if HasPrefix(line, "%") && HasSuffix(line, "%") {
        state := ToLower(Trim(line, "%"));
        continue;
      }
      ghost var before := info;
      match FieldOf(state) {
        case FilenameField => info := info.(filename := join(dbpath, line));
        case NameField => info := info.(name := line);
        case VersionField => info := info.(version := line);
        case DescField => info := info.(description := line);
        case BaseField => info := info.(base := line);
        case UrlField => info := info.(url := line);
        case BuildDateField =>
          var n := ParseInt(line);
          if n.None? {
            RunStopsAtError(lines, i, dbpath, join);
            return Err(BadBuildDate(line));
          }
          info := info.(buildDate := Some(n.value));
        case PackagerField => info := info.(packager := line);
        case CSizeField =>
          var n := ParseUint(line);
          if n.None? {
            RunStopsAtError(lines, i, dbpath, join);
            return Err(BadSize(line));
          }
          info := info.(size := n.value);
        case ArchField => info := info.(arch := line);
        case LicenseField => info := info.(license := line);
        case DependsField => info := info.(depends := info.depends + [line]);
        case OptDependsField => info := info.(optionalDepends := info.optionalDepends + [line]);
        case MakeDependsField => info := info.(makeDepends := info.makeDepends + [line]);
        case CheckDependsField => info := info.(checkDepends := info.checkDepends + [line]);
        case BackupField => info := info.(backups := info.backups + [line]);
        case ReplacesField => info := info.(replacements := info.replacements + [line]);
        case ProvidesField => info := info.(provisions := info.provisions + [line]);
        case ConflictsField => info := info.(conflicts := info.conflicts + [line]);
        case GroupsField => info := info.(groups := info.groups + [line]);
        case IgnoredField =>
        case UnknownSection =>
          RunStopsAtError(lines, i, dbpath, join);
          return Err(UnknownField(state));
      }
      assert Refusal(FieldOf(state), state, line).None? && info == Put(before, FieldOf(state), line, dbpath, join);
    }
    assert lines[..i] == lines;
    return Ok(info);
  }

  /** What one more line of input does to a scan that has not failed. */
  lemma RunNext(lines: seq<string>, k: nat, c: Scan, dbpath: string, join: (string, string) -> string)
    requires k < |lines| && Run(lines[..k], dbpath, join) == Ok(c)
    ensures TrimSpace(lines[k]) == "" ==> Run(lines[..k + 1], dbpath, join) == Ok(c)
    ensures TrimSpace(lines[k]) != "" && IsHeader(TrimSpace(lines[k])) ==>
      Run(lines[..k + 1], dbpath, join) == Ok(c.(state := SectionOf(TrimSpace(lines[k]))))
    ensures IsValueLine(lines[k]) ==>
      var f := FieldOf(c.state);
      var line := TrimSpace(lines[k]);
      Run(lines[..k + 1], dbpath, join) ==
        if Refusal(f, c.state, line).Some? then Err(Refusal(f, c.state, line).value)
        else Ok(c.(info := Put(c.info, f, line, dbpath, join)))
  {
    assert lines[..k + 1][..k] == lines[..k];
  }

  /** Once a prefix fails, the whole input fails with the same error. */
  lemma {:induction false} RunStopsAtError(lines: seq<string>, k: nat, dbpath: string, join: (string, string) -> string)
    requires k <= |lines|
    requires Run(lines[..k], dbpath, join).Err?
    ensures Run(lines, dbpath, join) == Run(lines[..k], dbpath, join)
  {
    if k < |lines| {
      assert lines[..|lines| - 1][..k] == lines[..k];
      RunStopsAtError(lines[..|lines| - 1], k, dbpath, join);
    } else {
      assert lines[..k] == lines;
    }
  }

  // ---------------------------------------------------------------------------
  // An independent description of what a successful scan reads.

  /** A line that is neither blank nor a header is a value line. */
  predicate IsValueLine(raw: string)
  {
    var line := TrimSpace(raw);
    line != "" && !IsHeader(line)
  }

  /** The section in force after the given lines: that of the last header, or "" before any. */
  function StateAfter(lines: seq<string>): string
  {
    if lines == [] then ""
    else
      var line := TrimSpace(lines[|lines| - 1]);
      if line != "" && IsHeader(line) then SectionOf(line) else StateAfter(lines[..|lines| - 1])
  }

  /** The trimmed value lines of the entry in input order, each tagged with the case
      label of the section it appears under. */
  function Tagged(lines: seq<string>): seq<(Field, string)>
  {
    if lines == [] then []
    else
      var prefix, last := lines[..|lines| - 1], lines[|lines| - 1];
      if IsValueLine(last) then Tagged(prefix) + [(FieldOf(StateAfter(prefix)), TrimSpace(last))]
      else Tagged(prefix)
  }

  /** The values tagged with the label f, in order. */
  function Filter(t: seq<(Field, string)>, f: Field): seq<string>
  {
    if t == [] then []
    else Filter(t[..|t| - 1], f) + (if t[|t| - 1].0 == f then [t[|t| - 1].1] else [])
  }

  lemma FilterSnoc(t: seq<(Field, string)>, f: Field, line: string, g: Field)
    ensures Filter(t + [(f, line)], g) == Filter(t, g) + (if f == g then [line] else [])
  {
    assert (t + [(f, line)])[..|t|] == t;
  }

  lemma LastSnoc(t: seq<(Field, string)>, f: Field, line: string, g: Field)
    ensures LastOr(Filter(t + [(f, line)], g), "") == if f == g then line else LastOr(Filter(t, g), "")
    ensures Filter(t + [(f, line)], g) == [] <==> f != g && Filter(t, g) == []
  {
    FilterSnoc(t, f, line, g);
  }

  /** The value lines under sections with the given case label. */
  function Values(lines: seq<string>, f: Field): seq<string>
  {
    Filter(Tagged(lines), f)
  }

  /** The record that tagged value lines describe: the last value of each single-valued
      section, every value of each list section, the database origin. */
  function Assemble(t: seq<(Field, string)>, dbpath: string, join: (string, string) -> string): Package
  {
    Package(
      filename := if Filter(t, FilenameField) == [] then "" else join(dbpath, LastOr(Filter(t, FilenameField), "")),
      name := LastOr(Filter(t, NameField), ""),
      version := LastOr(Filter(t, VersionField), ""),
      description := LastOr(Filter(t, DescField), ""),
      base := LastOr(Filter(t, BaseField), ""),
      url := LastOr(Filter(t, UrlField), ""),
      buildDate := if Filter(t, BuildDateField) == [] then None else Some(ParseInt(LastOr(Filter(t, BuildDateField), "")).GetOr(0)),
      packager := LastOr(Filter(t, PackagerField), ""),
      size := ParseUint(LastOr(Filter(t, CSizeField), "")).GetOr(0),
      arch := LastOr(Filter(t, ArchField), ""),
      license := LastOr(Filter(t, LicenseField), ""),
      depends := Filter(t, DependsField),
      optionalDepends := Filter(t, OptDependsField),
      makeDepends := Filter(t, MakeDependsField),
      checkDepends := Filter(t, CheckDependsField),
      backups := Filter(t, BackupField),
      replacements := Filter(t, ReplacesField),
      provisions := Filter(t, ProvidesField),
      conflicts := Filter(t, ConflictsField),
      groups := Filter(t, GroupsField),
      origin := DatabaseOrigin)
  }

  /** The sections whose lines the reader accepts (it keeps values of all but the last four). */
  const KnownSections: set<string> := {
    "filename", "name", "version", "desc", "base", "url", "builddate", "packager", "csize",
    "arch", "license", "depends", "optdepends", "makedepends", "checkdepends", "backup",
    "replaces", "provides", "conflicts", "groups", "isize", "md5sum", "pgpsig", "sha256sum" }

  /** The switch falls to its default case exactly for the names outside KnownSections. */
  lemma UnknownSections(state: string)
    ensures FieldOf(state) == UnknownSection <==> state !in KnownSections
  {
  }

  /** The error a value line raises under a section, if any. */
  function Rejection(state: string, line: string): Option<ParseError>
  {
    if state !in KnownSections then Some(UnknownField(state))
    else if state == "builddate" && ParseInt(line).None? then Some(BadBuildDate(line))
    else if state == "csize" && ParseUint(line).None? then Some(BadSize(line))
    else None
  }

  /** Line i is a value line that the reader refuses. */
  predicate Offending(lines: seq<string>, i: int)
    requires 0 <= i < |lines|
  {
    IsValueLine(lines[i]) && Rejection(StateAfter(lines[..i]), TrimSpace(lines[i])).Some?
  }

  /** The switch refuses a value line exactly when Rejection says so, with the same error. */
  lemma RefusalRejects(state: string, line: string)
    ensures Refusal(FieldOf(state), state, line) == Rejection(state, line)
  {
    UnknownSections(state);
  }

  /** What the switch changes: the field of the section's case label, and nothing else. */
  lemma PutFields(info: Package, f: Field, line: string, dbpath: string, join: (string, string) -> string, p: Package)
    requires p == Put(info, f, line, dbpath, join)
    ensures p.filename == (if f == FilenameField then join(dbpath, line) else info.filename)
    ensures p.name == (if f == NameField then line else info.name)
    ensures p.version == (if f == VersionField then line else info.version)
    ensures p.description == (if f == DescField then line else info.description)
    ensures p.base == (if f == BaseField then line else info.base)
    ensures p.url == (if f == UrlField then line else info.url)
    ensures p.packager == (if f == PackagerField then line else info.packager)
    ensures p.arch == (if f == ArchField then line else info.arch)
    ensures p.license == (if f == LicenseField then line else info.license)
    ensures p.depends == (if f == DependsField then info.depends + [line] else info.depends)
    ensures p.optionalDepends == (if f == OptDependsField then info.optionalDepends + [line] else info.optionalDepends)
    ensures p.makeDepends == (if f == MakeDependsField then info.makeDepends + [line] else info.makeDepends)
    ensures p.checkDepends == (if f == CheckDependsField then info.checkDepends + [line] else info.checkDepends)
    ensures p.backups == (if f == BackupField then info.backups + [line] else info.backups)
    ensures p.replacements == (if f == ReplacesField then info.replacements + [line] else info.replacements)
    ensures p.provisions == (if f == ProvidesField then info.provisions + [line] else info.provisions)
    ensures p.conflicts == (if f == ConflictsField then info.conflicts + [line] else info.conflicts)
    ensures p.groups == (if f == GroupsField then info.groups + [line] else info.groups)
    ensures p.buildDate == (if f == BuildDateField then Some(ParseInt(line).GetOr(0)) else info.buildDate)
    ensures p.size == (if f == CSizeField then ParseUint(line).GetOr(0) else info.size)
    ensures p.origin == info.origin
  {
  }

  /** Extending one group of value lines changes only the single-valued field it describes. */
  lemma AssembleTexts(t: seq<(Field, string)>, f: Field, line: string,
                   dbpath: string, join: (string, string) -> string, p: Package, q: Package)
    requires p == Assemble(t + [(f, line)], dbpath, join) && q == Assemble(t, dbpath, join)
    ensures p.name == (if f == NameField then line else q.name)
    ensures p.version == (if f == VersionField then line else q.version)
    ensures p.description == (if f == DescField then line else q.description)
    ensures p.base == (if f == BaseField then line else q.base)
    ensures p.url == (if f == UrlField then line else q.url)
    ensures p.packager == (if f == PackagerField then line else q.packager)
    ensures p.arch == (if f == ArchField then line else q.arch)
    ensures p.license == (if f == LicenseField then line else q.license)
  {
    LastSnoc(t, f, line, NameField);
    LastSnoc(t, f, line, VersionField);
    LastSnoc(t, f, line, DescField);
    LastSnoc(t, f, line, BaseField);
    LastSnoc(t, f, line, UrlField);
    LastSnoc(t, f, line, PackagerField);
    LastSnoc(t, f, line, ArchField);
    LastSnoc(t, f, line, LicenseField);
  }

  /** Extending one group of value lines extends only the list field it describes. */
  lemma AssembleLists(t: seq<(Field, string)>, f: Field, line: string,
                   dbpath: string, join: (string, string) -> string, p: Package, q: Package)
    requires p == Assemble(t + [(f, line)], dbpath, join) && q == Assemble(t, dbpath, join)
    ensures p.depends == (if f == DependsField then q.depends + [line] else q.depends)
    ensures p.optionalDepends == (if f == OptDependsField then q.optionalDepends + [line] else q.optionalDepends)
    ensures p.makeDepends == (if f == MakeDependsField then q.makeDepends + [line] else q.makeDepends)
    ensures p.checkDepends == (if f == CheckDependsField then q.checkDepends + [line] else q.checkDepends)
    ensures p.backups == (if f == BackupField then q.backups + [line] else q.backups)
    ensures p.replacements == (if f == ReplacesField then q.replacements + [line] else q.replacements)
    ensures p.provisions == (if f == ProvidesField then q.provisions + [line] else q.provisions)
    ensures p.conflicts == (if f == ConflictsField then q.conflicts + [line] else q.conflicts)
    ensures p.groups == (if f == GroupsField then q.groups + [line] else q.groups)
  {
    FilterSnoc(t, f, line, DependsField);
    FilterSnoc(t, f, line, OptDependsField);
    FilterSnoc(t, f, line, MakeDependsField);
    FilterSnoc(t, f, line, CheckDependsField);
    FilterSnoc(t, f, line, BackupField);
    FilterSnoc(t, f, line, ReplacesField);
    FilterSnoc(t, f, line, ProvidesField);
    FilterSnoc(t, f, line, ConflictsField);
    FilterSnoc(t, f, line, GroupsField);
  }

  /** Extending one group of value lines re-reads only the number or file name it describes. */
  lemma AssembleNumbers(t: seq<(Field, string)>, f: Field, line: string,
                   dbpath: string, join: (string, string) -> string, p: Package, q: Package)
    requires p == Assemble(t + [(f, line)], dbpath, join) && q == Assemble(t, dbpath, join)
    ensures p.buildDate == (if f == BuildDateField then Some(ParseInt(line).GetOr(0)) else q.buildDate)
    ensures p.size == (if f == CSizeField then ParseUint(line).GetOr(0) else q.size)
    ensures p.filename == (if f == FilenameField then join(dbpath, line) else q.filename)
    ensures p.origin == q.origin
  {
    LastSnoc(t, f, line, BuildDateField);
    LastSnoc(t, f, line, CSizeField);
    LastSnoc(t, f, line, FilenameField);
  }

  /** Assigning a value line to an assembled record assembles the groups extended by that line. */
  lemma PutAssembles(t: seq<(Field, string)>, f: Field, line: string,
                     dbpath: string, join: (string, string) -> string)
    ensures Put(Assemble(t, dbpath, join), f, line, dbpath, join) == Assemble(t + [(f, line)], dbpath, join)
  {
    PutFields(Assemble(t, dbpath, join), f, line, dbpath, join, Put(Assemble(t, dbpath, join), f, line, dbpath, join));
    var p, q := Assemble(t + [(f, line)], dbpath, join), Assemble(t, dbpath, join);
    AssembleTexts(t, f, line, dbpath, join, p, q);
    AssembleLists(t, f, line, dbpath, join, p, q);
    AssembleNumbers(t, f, line, dbpath, join, p, q);
  }

  /**
   * A successful scan ends in the section of the last header and with the record that
   * the tagged value lines describe.
   */
  lemma {:induction false} RunDescribes(lines: seq<string>, dbpath: string, join: (string, string) -> string)
    requires Run(lines, dbpath, join).Ok?
    ensures Run(lines, dbpath, join).value.state == StateAfter(lines)
    ensures Run(lines, dbpath, join).value.info == Assemble(Tagged(lines), dbpath, join)
  {
    if lines != [] {
      var k := |lines| - 1;
      var a := lines[..k];
      RunDescribes(a, dbpath, join);
      var c := Run(a, dbpath, join).value;
      RunNext(lines, k, c, dbpath, join);
      assert lines[..k + 1] == lines;
      if IsValueLine(lines[k]) {
        PutAssembles(Tagged(a), FieldOf(c.state), TrimSpace(lines[k]), dbpath, join);
      }
    }
  }

  /** In a successful scan every build date and every size value line parsed. */
  lemma {:induction false} RunParses(lines: seq<string>, dbpath: string, join: (string, string) -> string)
    requires Run(lines, dbpath, join).Ok?
    ensures forall v :: v in Values(lines, BuildDateField) ==> ParseInt(v).Some?
    ensures forall v :: v in Values(lines, CSizeField) ==> ParseUint(v).Some?
  {
    if lines != [] {
      var k := |lines| - 1;
      var a := lines[..k];
      RunParses(a, dbpath, join);
      RunDescribes(a, dbpath, join);
      var c := Run(a, dbpath, join).value;
      RunNext(lines, k, c, dbpath, join);
      assert lines[..k + 1] == lines;
      if IsValueLine(lines[k]) {
        var f, line := FieldOf(c.state), TrimSpace(lines[k]);
        assert Tagged(lines) == Tagged(a) + [(f, line)];
        ParsesStep(Tagged(a), f, line, c.state);
      }
    }
  }

  /** An accepted value line keeps every tagged build date and size parseable. */
  lemma ParsesStep(t: seq<(Field, string)>, f: Field, line: string, state: string)
    requires forall v :: v in Filter(t, BuildDateField) ==> ParseInt(v).Some?
    requires forall v :: v in Filter(t, CSizeField) ==> ParseUint(v).Some?
    requires Refusal(f, state, line).None?
    ensures forall v :: v in Filter(t + [(f, line)], BuildDateField) ==> ParseInt(v).Some?
    ensures forall v :: v in Filter(t + [(f, line)], CSizeField) ==> ParseUint(v).Some?
  {
    FilterSnoc(t, f, line, BuildDateField);
    FilterSnoc(t, f, line, CSizeField);
  }


  /** Single-valued sections keep the last value line given, or stay empty. */
  lemma EntryKeepsLastValue(lines: seq<string>, dbpath: string, join: (string, string) -> string, p: Package)
    requires Entry(lines, dbpath, join) == Ok(p)
    ensures p.name == LastOr(Values(lines, NameField), "")
    ensures p.version == LastOr(Values(lines, VersionField), "")
    ensures p.description == LastOr(Values(lines, DescField), "")
    ensures p.base == LastOr(Values(lines, BaseField), "")
    ensures p.url == LastOr(Values(lines, UrlField), "")
    ensures p.packager == LastOr(Values(lines, PackagerField), "")
    ensures p.arch == LastOr(Values(lines, ArchField), "")
    ensures p.license == LastOr(Values(lines, LicenseField), "")
    ensures p.filename == (if Values(lines, FilenameField) == [] then "" else join(dbpath, LastOr(Values(lines, FilenameField), "")))
  {
    RunDescribes(lines, dbpath, join);
  }

  /** List sections keep every value line, in input order. */
  lemma EntryCollectsLists(lines: seq<string>, dbpath: string, join: (string, string) -> string, p: Package)
    requires Entry(lines, dbpath, join) == Ok(p)
    ensures p.depends == Values(lines, DependsField)
    ensures p.optionalDepends == Values(lines, OptDependsField)
    ensures p.makeDepends == Values(lines, MakeDependsField)
    ensures p.checkDepends == Values(lines, CheckDependsField)
    ensures p.backups == Values(lines, BackupField)
    ensures p.replacements == Values(lines, ReplacesField)
    ensures p.provisions == Values(lines, ProvidesField)
    ensures p.conflicts == Values(lines, ConflictsField)
    ensures p.groups == Values(lines, GroupsField)
  {
    RunDescribes(lines, dbpath, join);
  }

  /** The numeric sections hold the value of their last line, which parsed; a missing build date stays the zero time. */
  lemma EntryNumbers(lines: seq<string>, dbpath: string, join: (string, string) -> string, p: Package)
    requires Entry(lines, dbpath, join) == Ok(p)
    ensures (Values(lines, BuildDateField) == [] ==> p.buildDate == None)
    ensures (Values(lines, BuildDateField) != [] ==> p.buildDate == ParseInt(LastOr(Values(lines, BuildDateField), "")) && p.buildDate.Some?)
    ensures (Values(lines, CSizeField) == [] ==> p.size == 0)
    ensures (Values(lines, CSizeField) != [] ==> Some(p.size) == ParseUint(LastOr(Values(lines, CSizeField), "")))
  {
    RunDescribes(lines, dbpath, join);
    RunParses(lines, dbpath, join);
    RunFails(lines, dbpath, join);
  }

  /** Everything the reader returns carries the database origin. */
  lemma EntryOrigin(lines: seq<string>, dbpath: string, join: (string, string) -> string)
    requires Entry(lines, dbpath, join).Ok?
    ensures Entry(lines, dbpath, join).value.origin == DatabaseOrigin
  {
    RunDescribes(lines, dbpath, join);
  }

  /** The error of the first value line that the reader refuses, if any. */
  function FirstRejection(lines: seq<string>): Option<ParseError>
  {
    if lines == [] then None
    else
      var prefix, last := lines[..|lines| - 1], lines[|lines| - 1];
      if FirstRejection(prefix).Some? then FirstRejection(prefix)
      else if IsValueLine(last) then Rejection(StateAfter(prefix), TrimSpace(last))
      else None
  }

  /** The scan fails exactly when some value line is refused, and with the first one's error. */
  lemma {:induction false} RunFails(lines: seq<string>, dbpath: string, join: (string, string) -> string)
    ensures Run(lines, dbpath, join).Err? <==> FirstRejection(lines).Some?
    ensures Run(lines, dbpath, join).Err? ==> Run(lines, dbpath, join).error == FirstRejection(lines).value
  {
    if lines != [] {
      var k := |lines| - 1;
      var a := lines[..k];
      RunFails(a, dbpath, join);
      assert lines[..k + 1] == lines;
      if Run(a, dbpath, join).Ok? {
        var c := Run(a, dbpath, join).value;
        RunDescribes(a, dbpath, join);
        RunNext(lines, k, c, dbpath, join);
        RefusalRejects(c.state, TrimSpace(lines[k]));
      }
    }
  }

  /** Line i is the first value line that the reader refuses. */
  predicate FirstOffending(lines: seq<string>, i: int)
  {
    0 <= i < |lines| && Offending(lines, i) && forall j :: 0 <= j < i ==> !Offending(lines, j)
  }

  /** When line i is the first refused line, FirstRejection reports its error. */
  lemma {:induction false} FirstRejectionAt(lines: seq<string>, i: int)
    requires FirstOffending(lines, i)
    ensures FirstRejection(lines) == Rejection(StateAfter(lines[..i]), TrimSpace(lines[i]))
    ensures FirstRejection(lines).Some?
  {
    var k := |lines| - 1;
    var a := lines[..k];
    if i == k {
      forall j | 0 <= j < k ensures !Offending(a, j) {
        assert a[..j] == lines[..j];
        assert !Offending(lines, j);
      }
      NoRejection(a);
    } else {
      forall j | 0 <= j <= i ensures Offending(a, j) == Offending(lines, j) {
        assert a[..j] == lines[..j];
      }
      FirstRejectionAt(a, i);
      assert a[..i] == lines[..i];
    }
  }

  /** When no line is refused, FirstRejection reports nothing. */
  lemma {:induction false} NoRejection(lines: seq<string>)
    requires forall i :: 0 <= i < |lines| ==> !Offending(lines, i)
    ensures FirstRejection(lines) == None
  {
    if lines != [] {
      var k := |lines| - 1;
      var a := lines[..k];
      forall j | 0 <= j < k ensures !Offending(a, j) {
        assert a[..j] == lines[..j];
        assert !Offending(lines, j);
      }
      NoRejection(a);
      assert !Offending(lines, k);
    }
  }

  /** A blank line leaves the section and the record as they were. */
  lemma BlankLineSkipped(lines: seq<string>, x: string, dbpath: string, join: (string, string) -> string)
    requires forall i :: 0 <= i < |x| ==> IsSpace(x[i])
    ensures Run(lines + [x], dbpath, join) == Run(lines, dbpath, join)
  {
    TrimSpaceCuts(x);
    assert (lines + [x])[..|lines|] == lines;
  }

  /** A header line selects its lower-cased section and sets no field. */
  lemma HeaderSelectsSection(lines: seq<string>, x: string, dbpath: string, join: (string, string) -> string)
    requires TrimSpace(x) != "" && IsHeader(TrimSpace(x))
    requires Run(lines, dbpath, join).Ok?
    ensures Run(lines + [x], dbpath, join) ==
      Ok(Run(lines, dbpath, join).value.(state := SectionOf(TrimSpace(x))))
    ensures NoUpper(Run(lines + [x], dbpath, join).value.state)
  {
    assert (lines + [x])[..|lines|] == lines;
    ToLowerLowers(Trim(TrimSpace(x), "%"));
  }

  /**
   * Section names are matched without regard to case: two headers `%w%` and `%v%` whose names
   * differ only in the case of their letters select the same section, the lower-cased name.
   */
  lemma HeadersIgnoreCase(w: string, v: string)
    requires w != [] && w[0] != '%' && w[|w| - 1] != '%'
    requires |v| == |w| && v[0] != '%' && v[|v| - 1] != '%'
    requires forall i :: 0 <= i < |w| ==> LowerChar(w[i]) == LowerChar(v[i])
    ensures SectionOf("%" + w + "%") == SectionOf("%" + v + "%") == ToLower(w)
    ensures NoUpper(SectionOf("%" + w + "%"))
  {
    Enclosed(w);
    Enclosed(v);
    assert ToLower(w) == ToLower(v);
    ToLowerLowers(w);
  }

  /** A worked example: the header `%BUILDDATE%` selects the build-date case of the switch. */
  lemma BuildDateHeader()
    ensures FieldOf(SectionOf("%BUILDDATE%")) == BuildDateField
  {
    Enclosed("BUILDDATE");
    assert "%BUILDDATE%" == "%" + "BUILDDATE" + "%";
    assert ToLower("BUILDDATE") == "builddate";
  }

  /** Trimming the percent signs off `%w%` gives back `w` when `w` does not start or end with one. */
  lemma Enclosed(w: string)
    requires w != [] && w[0] != '%' && w[|w| - 1] != '%'
    ensures Trim("%" + w + "%", "%") == w
  {
    var cut := c => c in "%";
    var s := "%" + w + "%";
    assert s[1..] == w + "%";
    assert TrimLeftFunc(s, cut) == w + "%";
    assert (w + "%")[..|w|] == w;
    assert TrimRightFunc(w + "%", cut) == TrimRightFunc(w, cut) == w;
  }

  /** A value line before the first header falls in the section "" and fails the read. */
  lemma ValueBeforeHeaderFails(lines: seq<string>, dbpath: string, join: (string, string) -> string)
    requires lines != [] && IsValueLine(lines[0])
    ensures Entry(lines, dbpath, join) == Err(UnknownField(""))
  {
    assert lines[..0] == [];
    assert Offending(lines, 0);
    FirstRejectionAt(lines, 0);
    RunFails(lines, dbpath, join);
  }


}
