# Dependency graph of AUR packages, modelled in Dafny

This project models three parts of a tool that resolves the dependencies of AUR
(Arch User Repository) packages:

- **Package database entry reader** (`database.dfy`, module `Database`):
  - `HasDatabaseFormat` is a suffix check for `.db.tar.gz`.
  - `readDatabasePkgInfo` reads the `desc` file of one database entry line by
    line. A `%SECTION%` header selects a field. Each value line after it sets
    that field (single-valued sections) or appends to it (list sections).
  - The loop is the method `ReadDatabasePkgInfo`, proved equal to the
    function `Entry`.
  - Lemmas describe what `Entry` produces:
    - the last value of each single-valued section;
    - every value of each list section, in order;
    - the parsed numbers;
    - the origin;
    - exactly when and with which error the read fails.
  - The Go library functions it calls (`strings.TrimSpace`, `Trim`, `ToLower`,
    `HasPrefix`, `HasSuffix`, and `strconv.ParseInt`/`ParseUint` in base 10
    with 64 bits) are modelled in `gostrings.dfy` (module `GoStrings`).
- **Append-only dependency graph** (`graph.dfy`, module `DepGraph`):
  - The class `Graph` has Go's seven fields (`names`, `nodes`, `nodeIDs`,
    `edgesFrom`, `edgesTo`, `edges`, `nextID`) as maps, sequences and an
    integer, updated in place.
  - Each mutating method is proved against a function on the value
    `GraphState`, and the graph invariant `Coherent` is proved preserved.
    `Coherent` says the name index, the id index and the node list agree,
    no id is listed twice, every node has its rows, and every adjacency list
    holds only its owner.
  - `AddEdgeFromTo` is modelled as written. It appends `u` to `u`'s own
    out-list and `v` to `v`'s own in-list, not the opposite endpoint. So
    `HasEdgeFromTo(u, v)` can only hold when `u` and `v` have the same id
    (`OutListsSelf`, `Graph.HasEdgeFromTo`).
- **Graph factory** (`factory.dfy`, module `GraphFactory`):
  - The class `Factory` holds the installed and repository package maps,
    the three switches, the dependency function and the AUR request counter.
  - `NewGraph` seeds the graph with the requested packages. It then runs the
    layer loop: scan the frontier, make one batched AUR request, adopt the
    fetched packages and wire the pending edges.
  - Each dependency name of a frontier node takes exactly one route, and the
    scan lemmas state what each route does to the graph, the next frontier,
    the unavailable set and the pending map:
    - `ToExisting`: an edge to the node already in the graph;
    - `Skipped`: installed, and `skipInstalled` is set;
    - `ToSync`: a fresh repository node;
    - `ToRemote`: deferred to the AUR.
  - The remote lookup is an oracle function: the reply is `Found`,
    `NotFound` (with the found packages and the missing names) or
    `Unreachable`.
  - One layer is the method `Factory.Layer`, proved against `LayerSpec`. The
    outer loop is `Factory.Spin`, proved against `Rounds`/`Outer` with a fuel
    bound.

The files `wrappers.dfy` (`Option`, `Result`, map and sequence helpers) and
`pacman.dfy` (the `Package` record and its `Origin`) are shared by the three
models.

Behaviours of the code that the model keeps as written:

- **Loop guard.** The outer loop of `NewGraph` runs while the frontier is
  *empty* (`pacman/graph/factory.go:135`). A non-empty seed list is therefore
  returned at once with its seed nodes, after no AUR request
  (`SeedsNotExpanded`), and the seeded graph has no edges (`SeedEdgeless`).
  An empty seed list makes the request `[]` in every round. A round then
  ends the loop in one of three ways, or starts another:
  - with an error, when the lookup fails, or when names are not found and
    unknown packages are refused (`SettleHalts`);
  - by a panic, when the reply's names repeat or clash with a name already
    in the graph (`AdoptAllSucceeds`);
  - with a graph, when the reply brings packages whose names are distinct
    and new (`Factory.Round`);
  - with another round, when the reply brings nothing
    (`SpinsOnEmptyReply`).
  In the model the AUR is a function of the request, so every round gets the
  same reply as the first, and the loop ends on the first round or never
  (see the AUR oracle line under "Left out"). The source's AUR may answer a
  later `[]` request differently. Non-termination is modelled by the fuel
  parameter and the outcome `Spinning`.
- **Sync nodes.** A dependency found in a repository gets a fresh id from
  `NewNode` and an edge to it (`ScanLinksSync`), but is never added with
  `AddNode` (`pacman/graph/factory.go:157`). The graph's node list and id
  index do not grow (`ScanKeepsNodes`). The id is used up all the same
  (`SyncMadeIds`).
- **Latent panic.** Such a node has no edge row. It joins the next frontier
  when `truncate` is off (`pacman/graph/factory.go:158-161`). If the loop
  ever scanned it, its first edge would assign into a missing map
  (`vendor/github.com/goulash/pacman/graph/graph.go:205`) and panic. The
  loop guard runs layers only on an empty frontier, so this never happens
  as written. `Factory.Layer` requires every frontier node to have a row.
- **Request shape.** The AUR request `fromAUR` is made with
  `len(unavailable)` empty strings and the names are appended after them
  (`pacman/graph/factory.go:185-188`). So a non-empty request always asks for
  `""` as well (`IsRequest`, `RequestShape`).
- **Placeholders.** On a tolerated not-found error, each missing name becomes
  a package of unknown origin with no dependencies. It is adopted like a
  fetched package, appended to the next frontier, and the found packages
  follow (`Fetched`, `SettleGrows`).
- **Panics.** `AddNode` panics on a repeated name or id
  (`vendor/github.com/goulash/pacman/graph/graph.go:186-191`). The graph
  methods take these as preconditions. The factory checks them first and
  ends with the outcome `Panicked` instead (`AdoptStepFails`,
  `AdoptAllSucceeds`, `Factory.AddFetched`).

## Model

| member | source | states |
|---|---|---|
| Database.DatabaseFormatNames | vendor/src/github.com/goulash/pacman/database.go:26-28 | every name that ends in `.db.tar.gz` has the database format |
| Database.DatabaseFormatStem | vendor/src/github.com/goulash/pacman/database.go:26-28 | a name with the database format is at least 10 characters long and is its stem followed by `.db.tar.gz` |
| Database.ReadDatabasePkgInfo | vendor/src/github.com/goulash/pacman/database.go:63-140 | the reading loop returns `Entry(lines)`: the record, or the error of the first refused line |
| Database.RunStopsAtError | vendor/src/github.com/goulash/pacman/database.go:93-133 | once a line fails the read, the lines after it do not change the result |
| Database.RunDescribes | vendor/src/github.com/goulash/pacman/database.go:68-133 | after a successful read, the state is the section of the last header (`""` before any), and the record is assembled from the value lines, each tagged with its section |
| Database.RunParses | vendor/src/github.com/goulash/pacman/database.go:93-105 | after a successful read, every `builddate` value parses as a signed 64-bit decimal, and every `csize` value as an unsigned one |
| Database.EntryKeepsLastValue | vendor/src/github.com/goulash/pacman/database.go:80-109 | name, version, desc, base, url, packager, arch and license each hold the last value line of their section (`""` if none); the filename is the last `filename` value joined to the database's directory |
| Database.EntryCollectsLists | vendor/src/github.com/goulash/pacman/database.go:110-127 | each of the nine list sections holds all its value lines in input order |
| Database.EntryNumbers | vendor/src/github.com/goulash/pacman/database.go:93-105 | the build date is absent (Go's zero time) when no `builddate` line is given, and otherwise the parsed last value; the size is the parsed last value, or 0 when absent |
| Database.EntryOrigin | vendor/src/github.com/goulash/pacman/database.go:65 | a successful read has database origin |
| Database.RunFails | vendor/src/github.com/goulash/pacman/database.go:93-133 | the read fails if and only if some value line is refused (bad build date, bad size, unknown section), and it fails with the first refused line's error |
| Database.FirstRejectionAt | vendor/src/github.com/goulash/pacman/database.go:93-133 | when line i is the first refused line, the reported error is line i's error under the section in force there |
| Database.NoRejection | vendor/src/github.com/goulash/pacman/database.go:134-139 | when no line is refused, no error is reported |
| Database.UnknownSections | vendor/src/github.com/goulash/pacman/database.go:80-133 | a section falls to the default case exactly when it is none of the 24 names in the switch; isize, md5sum, pgpsig and sha256sum are ignored, not refused |
| Database.BlankLineSkipped | vendor/src/github.com/goulash/pacman/database.go:71-74 | appending a line of white space leaves the result unchanged |
| Database.HeaderSelectsSection | vendor/src/github.com/goulash/pacman/database.go:75-78 | appending a header line changes only the state, to the header's lower-cased text without `%`; the state has no upper-case letter |
| Database.HeadersIgnoreCase | vendor/src/github.com/goulash/pacman/database.go:75-78 | two headers whose names differ only in letter case select the same section, the lower-cased name, which has no upper-case letter |
| Database.BuildDateHeader | vendor/src/github.com/goulash/pacman/database.go:75-93 | a worked example: the header `%BUILDDATE%` selects the build-date case |
| Database.Enclosed | vendor/src/github.com/goulash/pacman/database.go:76 | trimming `%` off `%w%` gives `w` when `w` does not start or end with `%` |
| Database.ValueBeforeHeaderFails | vendor/src/github.com/goulash/pacman/database.go:68-132 | a value line before any header fails the read with an unknown field `""` |
| GoStrings.TrimSpaceCuts | vendor/src/github.com/goulash/pacman/database.go:71-72 | a trimmed line is empty exactly when the line is all white space, and otherwise neither starts nor ends with white space |
| GoStrings.TrimCuts | vendor/src/github.com/goulash/pacman/database.go:76 | trimming `%` leaves no `%` at either end |
| GoStrings.ToLowerLowers | vendor/src/github.com/goulash/pacman/database.go:76 | a lower-cased string has no upper-case letter; lower-casing is idempotent, and leaves a string unchanged exactly when it has no upper-case letter |
| GoStrings.ParseRanges | vendor/src/github.com/goulash/pacman/database.go:94-102 | accepted values are within the signed or unsigned 64-bit range |
| GoStrings.ParseUintDecimal | vendor/src/github.com/goulash/pacman/database.go:102 | the decimal text of any n up to 2^64-1 parses back to n |
| GoStrings.ParseIntDecimal | vendor/src/github.com/goulash/pacman/database.go:94 | the signed decimal text of any i in the 64-bit range parses back to i |
| GoStrings.ParseUintRejectsSign | vendor/src/github.com/goulash/pacman/database.go:102 | an unsigned value cannot carry a sign |
| DepGraph.AllDepends | vendor/github.com/goulash/pacman/graph/graph.go:49-59 | the install dependencies followed by the make dependencies; its length is NumAllDepends |
| DepGraph.EmptyCoherent | vendor/github.com/goulash/pacman/graph/graph.go:97-107 | a new graph satisfies the invariant |
| DepGraph.WithNodeFresh | vendor/github.com/goulash/pacman/graph/graph.go:166-169 | the new id is above every id in use, and the invariant is kept |
| DepGraph.InsertedListed | vendor/github.com/goulash/pacman/graph/graph.go:193-196 | after AddNode every listed node is indexed by its name and by its id |
| DepGraph.InsertedBacked | vendor/github.com/goulash/pacman/graph/graph.go:193-196 | after AddNode every indexed name and id belongs to a listed node |
| DepGraph.InsertedDistinct | vendor/github.com/goulash/pacman/graph/graph.go:186-196 | after AddNode no id is listed twice |
| DepGraph.InsertedSelfListed | vendor/github.com/goulash/pacman/graph/graph.go:197-199 | after AddNode every adjacency list still holds only its owner, and every stored edge runs between the ids it is stored under |
| DepGraph.InsertedCoherent | vendor/github.com/goulash/pacman/graph/graph.go:186-199 | AddNode, under its panic preconditions, keeps the invariant |
| DepGraph.InsertedIdsBelow | vendor/github.com/goulash/pacman/graph/graph.go:186-199 | AddNode of an id handed out by NewNodeID keeps all ids at most nextID |
| DepGraph.LinkedCoherent | vendor/github.com/goulash/pacman/graph/graph.go:203-208 | AddEdgeFromTo keeps the invariant and the id bound |
| DepGraph.LinkedLists | vendor/github.com/goulash/pacman/graph/graph.go:206-207 | AddEdgeFromTo appends u to u's out-list and v to v's in-list, changes no other list, and leaves nodes, indices and counter alone |
| DepGraph.LinkedTwice | vendor/github.com/goulash/pacman/graph/graph.go:204-207 | repeating an edge leaves the edge table as after the first call, but the out-list grows again |
| DepGraph.OutListsSelf | vendor/github.com/goulash/pacman/graph/graph.go:206 | every node in an out-list has the list owner's id |
| DepGraph.Graph.constructor | vendor/github.com/goulash/pacman/graph/graph.go:97-107 | empty indices and lists, counter 0, invariant holds |
| DepGraph.Graph.NodeWithName | vendor/github.com/goulash/pacman/graph/graph.go:123-125 | a node is found exactly when the name is in the graph, and it carries that name |
| DepGraph.Graph.From | vendor/github.com/goulash/pacman/graph/graph.go:133-135 | every node in u's out-list has u's id |
| DepGraph.Graph.To | vendor/github.com/goulash/pacman/graph/graph.go:138-140 | every node in v's in-list has v's id |
| DepGraph.Graph.EdgeOf | vendor/github.com/goulash/pacman/graph/graph.go:161-163 | an edge is found exactly when the table has the pair, and it runs from u to v |
| DepGraph.Graph.HasEdgeFromTo | vendor/github.com/goulash/pacman/graph/graph.go:149-156 | the search loop answers whether v is in u's out-list; then u and v have the same id |
| DepGraph.Graph.HasEdgeBetween | vendor/github.com/goulash/pacman/graph/graph.go:144-146 | whether v is in u's out-list or u is in v's |
| DepGraph.Graph.NewNodeID | vendor/github.com/goulash/pacman/graph/graph.go:166-169 | returns the old counter plus one, changes only the counter, and the id is not in use |
| DepGraph.Graph.NewNode | vendor/github.com/goulash/pacman/graph/graph.go:172-177 | a node with the next id, not in the graph, whose id no named node has; only the counter changes |
| DepGraph.Graph.AddNode | vendor/github.com/goulash/pacman/graph/graph.go:180-200 | the node is listed last and found by name and id, with empty lists; the invariant is kept |
| DepGraph.Graph.AddEdgeFromTo | vendor/github.com/goulash/pacman/graph/graph.go:203-208 | the edge (u, v) is in the table, u's out-list gains u and v's in-list gains v; the invariant is kept |
| Pacman.Blank | vendor/src/github.com/goulash/pacman/database.go:65 | a zero record with the given origin: empty name and no dependencies |
| GraphFactory.DefaultDepsAreAllDepends | pacman/graph/factory.go:45-50 | the default dependency function is AllDepends |
| GraphFactory.KeptRepositoriesMembers | pacman/graph/factory.go:72-79 | a repository is kept if and only if it is enabled and not ignored |
| GraphFactory.KeptRepositoriesAppend | pacman/graph/factory.go:72-79 | the filter keeps the enabled order: it distributes over concatenation |
| GraphFactory.KeptRepositoriesNoIgnore | pacman/graph/factory.go:72-79 | with nothing ignored every enabled repository is kept |
| GraphFactory.FilterRepositories | pacman/graph/factory.go:72-79 | the labelled double loop computes KeptRepositories |
| GraphFactory.SyncMadeIds | pacman/graph/factory.go:156-157 | repository nodes get consecutive fresh ids and their packages from the repository map |
| GraphFactory.StepPending | pacman/graph/factory.go:169-170 | one deferred name appends the current node to that name's pending list and changes no other list |
| GraphFactory.StepOutLists | pacman/graph/factory.go:143-163 | an existing or repository dependency appends the current node to its own out-list |
| GraphFactory.StepCounter | pacman/graph/factory.go:157 | only a repository dependency uses up an id |
| GraphFactory.StepNext | pacman/graph/factory.go:158-161 | only a repository dependency, and only without truncate, joins the next frontier |
| GraphFactory.StepKeepsEdge | pacman/graph/factory.go:141-171 | the scan of one name removes no edge |
| GraphFactory.ScanUnavailable | pacman/graph/factory.go:169 | the unavailable set gains exactly the names routed to the AUR |
| GraphFactory.ScanPending | pacman/graph/factory.go:170 | each name's pending list gains every node that deferred it, once per occurrence, in scan order |
| GraphFactory.ScanCounter | pacman/graph/factory.go:157 | the counter grows by the number of repository nodes made |
| GraphFactory.ScanSync | pacman/graph/factory.go:156-163 | with truncate the next frontier is unchanged; without it, it gains the repository nodes in scan order |
| GraphFactory.ScanTruncated | pacman/graph/factory.go:158 | with truncate the scan adds nothing to the frontier |
| GraphFactory.ScanOutLists | pacman/graph/factory.go:141-172 | each out-list gains one copy of its owner per linked dependency of that owner |
| GraphFactory.ScanLinksExisting | pacman/graph/factory.go:143-147 | a name already in the graph gets an edge from the current node to the existing node |
| GraphFactory.StepEdges | pacman/graph/factory.go:143-163 | one dependency name adds at most one edge: from its node, to the existing node or to the next id, and only on those two routes |
| GraphFactory.ScanEdges | pacman/graph/factory.go:141-172 | the scan adds to a node's edge row exactly the targets of its linked dependencies; skipped and deferred names add none |
| GraphFactory.TargetsHas | pacman/graph/factory.go:141-172 | every linked dependency's target is among its node's targets |
| GraphFactory.TargetsFrom | pacman/graph/factory.go:141-172 | every target comes from a linked dependency of that node |
| GraphFactory.ScanLinksSync | pacman/graph/factory.go:156-163 | a dependency found in a repository gets an edge from its node to the repository node made for it |
| GraphFactory.StepKeepsNodes | pacman/graph/factory.go:157 | one dependency name leaves the node list and the id index alone |
| GraphFactory.ScanKeepsNodes | pacman/graph/factory.go:141-172 | the scan leaves the node list and the id index alone: repository nodes are never added |
| GraphFactory.LinkingOwn | pacman/graph/factory.go:141-172 | everything the scan appends to an out-list is the owner itself |
| GraphFactory.ScanPendingIn | pacman/graph/factory.go:170 | every pending node is a graph node with an edge row |
| GraphFactory.RequestShape | pacman/graph/factory.go:185-188 | the request is empty exactly when nothing is unavailable, and otherwise includes `""` |
| GraphFactory.AurRequest | pacman/graph/factory.go:185-188 | the request holds one `""` per unavailable name, then each unavailable name once |
| GraphFactory.LinkAllKeeps | pacman/graph/factory.go:179-181 | wiring pending edges changes no node, index or counter |
| GraphFactory.LinkAllReaches | pacman/graph/factory.go:179-181 | every pending node gets an edge to the fetched node |
| GraphFactory.LinkAllOutLists | pacman/graph/factory.go:179-181 | each pending node's out-list gains one copy of itself per listing |
| GraphFactory.LinkAllInLists | pacman/graph/factory.go:179-181 | the fetched node's in-list gains one copy of itself per pending node; no other in-list changes |
| GraphFactory.LinkAllKeepsEdge | pacman/graph/factory.go:179-181 | wiring pending edges removes no edge |
| GraphFactory.AdoptStepCounter | pacman/graph/factory.go:176-178 | adopting a package uses one id and adds its name |
| GraphFactory.AdoptStepNodes | pacman/graph/factory.go:176-178 | the adopted node is listed after the old nodes with the next id |
| GraphFactory.AdoptStepNext | pacman/graph/factory.go:177 | the adopted node is appended to the next frontier |
| GraphFactory.AdoptStepIds | pacman/graph/factory.go:176-178 | adoption keeps every id at most the counter |
| GraphFactory.AdoptStepFails | pacman/graph/factory.go:178 | adoption panics exactly when the name is already in the graph |
| GraphFactory.AdoptStepRows | pacman/graph/factory.go:178 | after adoption every node has an edge row |
| GraphFactory.AdoptStepKeepsEdge | pacman/graph/factory.go:175-182 | adoption removes no edge |
| GraphFactory.AdoptStepLinks | pacman/graph/factory.go:179-181 | every node pending on the package's name gets an edge to the adopted node |
| GraphFactory.AdoptAllCounter | pacman/graph/factory.go:209-211 | adopting a list uses one id per package |
| GraphFactory.AdoptAllNodes | pacman/graph/factory.go:209-211 | the adopted nodes are listed after the old nodes, in order, with consecutive ids |
| GraphFactory.AdoptAllNext | pacman/graph/factory.go:209-211 | the adopted nodes join the next frontier in order |
| GraphFactory.AdoptAllNames | pacman/graph/factory.go:209-211 | the name index gains exactly the adopted names |
| GraphFactory.AdoptAllIds | pacman/graph/factory.go:209-211 | adoption keeps every id at most the counter |
| GraphFactory.AdoptAllSucceeds | pacman/graph/factory.go:209-211 | a list is adopted without panic if and only if its names are distinct and new to the graph |
| GraphFactory.AdoptAllStuck | pacman/graph/factory.go:209-211 | once an adoption panics, the rest of the list cannot undo it |
| GraphFactory.AdoptAllRows | pacman/graph/factory.go:209-211 | adopting a list keeps one edge row per indexed node |
| GraphFactory.AdoptEdgeless | pacman/graph/factory.go:175-182 | with no pending names, adopting a package adds no edge |
| GraphFactory.AdoptAllEdgeless | pacman/graph/factory.go:209-211 | with no pending names, adopting a list adds no edge |
| GraphFactory.EdgeMade | pacman/graph/factory.go:179-181 | the last adoption of a list links the nodes pending on its name to its node |
| GraphFactory.EdgeCarried | pacman/graph/factory.go:209-211 | an edge made while adopting a prefix survives the next adoption |
| GraphFactory.AdoptAllLinks | pacman/graph/factory.go:175-211 | after a list is adopted, every node pending on the i-th package's name has an edge to that package's node, id base + i + 1 |
| GraphFactory.Placeholder | pacman/graph/factory.go:198-203 | a package with the missing name, unknown origin and no dependencies |
| GraphFactory.SettleGrows | pacman/graph/factory.go:194-211 | a layer that grows adds one node per fetched package, placeholders first, to the node list and to the next frontier |
| GraphFactory.SettleHalts | pacman/graph/factory.go:194-207 | a layer returns an error exactly when the lookup failed, or names were not found and unknown packages are refused; a failed lookup returns its error unchanged, and a refused not-found error carries the missing names |
| GraphFactory.SettleLinks | pacman/graph/factory.go:194-211 | in a layer that grows, every node pending on a fetched package's name has an edge to that package's node |
| GraphFactory.SeedNodes | pacman/graph/factory.go:125-132 | seeding succeeds exactly when the names are distinct; the seeds become nodes 1, 2, ... in order and form the first frontier |
| GraphFactory.SeedEdgeless | pacman/graph/factory.go:125-132 | the seeded graph has no edge |
| GraphFactory.SeedsNotExpanded | pacman/graph/factory.go:135 | with seeds of distinct names the layer loop never runs: the seeded graph is returned after no AUR request |
| GraphFactory.SpinsOnEmptyReply | pacman/graph/factory.go:135-214 | from an empty frontier, a reply that brings no package and no error keeps the loop running for any fuel |
| GraphFactory.LinkPending | pacman/graph/factory.go:179-181 | the loop over the pending list adds those edges and keeps the invariant |
| GraphFactory.AddFetched | pacman/graph/factory.go:175-182 | addFetchedPkg: NewNode, append to the frontier, AddNode, wire the pending edges; panics exactly as the adoption function says |
| GraphFactory.AdoptEach | pacman/graph/factory.go:209-211 | adopting each package in turn matches the adoption of the whole list |
| GraphFactory.Factory.constructor | pacman/graph/factory.go:41-51 | all switches off, the default dependency function, no AUR request yet |
| GraphFactory.Factory.SetSkipInstalled | pacman/graph/factory.go:93-95 | only skipInstalled changes |
| GraphFactory.Factory.SetTruncate | pacman/graph/factory.go:99-101 | only truncate changes |
| GraphFactory.Factory.SetNoUnknown | pacman/graph/factory.go:106-108 | only noUnknown changes |
| GraphFactory.Factory.SetDependencyFunc | pacman/graph/factory.go:112-114 | only the dependency function changes |
| GraphFactory.Factory.ScanDemand | pacman/graph/factory.go:142-171 | the scan of one dependency name matches the routing function: link, skip, repository node or defer |
| GraphFactory.Factory.ScanNode | pacman/graph/factory.go:142-171 | the scan of one frontier node's dependencies matches the scan over its demands |
| GraphFactory.Factory.ScanFrontier | pacman/graph/factory.go:141-172 | the scan of the frontier matches the scan function from empty locals |
| GraphFactory.Factory.Layer | pacman/graph/factory.go:136-213 | one loop iteration: exactly one AUR request, of the pre-sized shape; the outcome is LayerSpec of the reply; the invariant is kept |
| GraphFactory.Factory.Round | pacman/graph/factory.go:135-214 | one round from an empty frontier matches one step of Rounds and makes one request |
| GraphFactory.Factory.Spin | pacman/graph/factory.go:135-214 | the outer loop matches Outer within the fuel, and the request counter grows by its number of rounds |
| GraphFactory.Factory.NewGraph | pacman/graph/factory.go:124-217 | the whole operation matches NewGraphSpec: the graph, the error, a panic or still looping, and the number of AUR requests |

## Left out

- Reading the installed and repository databases in `NewFactory` is file I/O. The constructor takes the two package maps as parameters. Only the repository filter `nextRepo` is modelled (`FilterRepositories`).
- `ReadDatabase` (tar and decompression streaming) is I/O and is not modelled. Neither is the scanner's own read error.
- The reader takes the entry as a sequence of lines, so how `bufio.Scanner` splits lines is not modelled.
- `path.Join(path.Dir(dbpath), line)` is the uninterpreted parameter `join`.
- `time.Unix(n, 0)` is stored as `Some(n)`, and Go's zero `time.Time` as `None`.
- `aur.ReadAll` and `aur.IsNotFound` are a network client. They are the oracle parameter, a function from request to reply.
- Because the oracle is a function of the request, rounds with the same request get the same reply. The source's AUR could answer them differently.
- The reply has three shapes. A not-found error with packages also found is `NotFound(pkgs, missing)`.
- Strings are sequences of characters. `TrimSpace` uses Unicode's White_Space set, as `unicode.IsSpace` does. `ToLower` maps only the ASCII letters; other letters keep their case.
- The gonum interfaces and the type-assertion panic on a foreign node are not modelled.
- Node identity is by value and id rather than by pointer.
- `IsFromAUR` and `EdgeIsFromAUR` compare an origin tag. They are plain predicates and carry no contract of their own.
- Edge weights, the `String` methods and `Dependencies` are not modelled.
- `Has`, `HasName` and `Nodes` are modelled as plain graph lookups with no contract of their own. `NumRequestsAUR` is a plain field read.
- Factory.Spin, Factory.NewGraph: the outer loop is bounded by a fuel parameter. Running out of fuel gives `Spinning`, because the loop as written need not terminate.
- Factory.Layer: requires every frontier node to have an edge row. The layer loop only runs on an empty frontier, so this always holds there.
- DepGraph.Graph.AddNode, DepGraph.Graph.AddEdgeFromTo: the panics are preconditions. The factory checks them itself and models the panic as the outcome `Panicked`.
- Go's `int` counters (`nextID`, `aurCalls`) are unbounded integers. A wrap-around after 2^63 ids is not modelled.
