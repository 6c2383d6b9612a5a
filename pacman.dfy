/**
 * The package record of the pacman library, as far as the database parser and the
 * dependency graph use it.
 */
module Pacman {
  import opened Wrappers

  /** Where a package record came from (the library's origin tag). */
  datatype Origin = UnknownOrigin | FileOrigin | DatabaseOrigin | LocalOrigin | SyncOrigin | AUROrigin

  /**
   * The fields of a package record that a repository database entry can set.
   * `buildDate` holds the Unix time in seconds, or None for Go's zero `time.Time` (no date
   * read); `size` is an unsigned 64-bit value.
   */
  datatype Package = Package(
    filename: string,
    name: string,
    version: string,
    description: string,
    base: string,
    url: string,
    buildDate: Option<int>,
    packager: string,
    size: nat,
    arch: string,
    license: string,
    depends: seq<string>,
    optionalDepends: seq<string>,
    makeDepends: seq<string>,
    checkDepends: seq<string>,
    backups: seq<string>,
    replacements: seq<string>,  // the Go field Replaces
    provisions: seq<string>,    // the Go field Provides
    conflicts: seq<string>,
    groups: seq<string>,
    origin: Origin)

  /** The Go literal `Package{Origin: origin}`: every other field has its zero value. */
  function Blank(origin: Origin): (p: Package)
    ensures p.origin == origin && p.name == "" && p.depends == [] && p.makeDepends == []
  {
    Package("", "", "", "", "", "", None, "", 0, "", "",
            [], [], [], [], [], [], [], [], [], origin)
  }
}
