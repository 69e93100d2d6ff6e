# Volume commands of the tsuru client, modelled in Dafny

This project models the decision logic of the tsuru client's volume commands
(`tsuru/client/volume.go`). It covers three pieces:

- **`volume list`.** The four filter criteria (name, pool, plan, team owner) become the query sent to the server. The volumes the server returns are filtered again on the client. They are then shown as names only, as JSON, or as a sorted table, in that order of precedence.
- **`volume info`.** The summary lines, the bind table (mode `ro`/`rw`) and the two key/value option tables.
- **`volume plan list`.** One row per (provisioner, plan) pair. Each row's options cell holds the sorted `key: value` lines joined by line breaks. The rows are ordered by plan name, then by provisioner.

Files and modules:

| file | module | what it holds |
|---|---|---|
| `types.dfy` | `VolumeTypes` | `Volume`, `VolumePlan`, `Bind`, `BindID`; the transport response and command outcome shapes |
| `text.dfy` | `Text` | substring search, string order, string sorting, joining |
| `maps.dfy` | `MapIteration` | ranging over a map in an unspecified key order |
| `tables.dfy` | `Tables` | table rows and the row order a table is asked to sort by |
| `filtering.dfy` | `Filtering` | the filter, its query string, the client-side filter and its properties |
| `volume_list.dfy` | `VolumeListCmd` | the list command's output dispatch and run |
| `volume_info.dfy` | `VolumeInfoCmd` | the info command's view and run |
| `volume_plans.dfy` | `VolumePlansCmd` | the plan-list command's rows and run |

Modelling choices:

- **Map iteration.** A Go `range` over a map visits the keys in an unspecified order. The methods that range over a map pick each next key with a non-deterministic choice (`:|`). Their contracts are stated on multisets, because only the multiset of what they gather is fixed. `MapIteration.FlattenPick` shows that every visiting order gathers the same multiset.
- **Sorting is deterministic.** A sorted permutation of strings is unique (`Text.SortedStringsUnique`). So an options cell does not depend on the order in which the map handed out the options.
- **Table sorting.** `Sort()` is modelled as ordering by every column in turn. `SortByColumn(0, 1)` is modelled as ordering by columns 0 and 1. The contract is "sorted and a permutation". Rows that tie on the sort columns may come in any order, as with Go's unstable `sort.Sort`.
- **Query parameters.** A query is modelled as a map from key to a list of values. Setting a key gives it the one-element list of that value.
- **Transport and decoding.** Both are parameters. A command receives a `Response`: a transport error, 204 No Content, or a decoded body (a value or a decode error).

## Model

| member | source | states |
|---|---|---|
| `Filtering.QueryString` | tsuru/client/volume.go:159-174 | never fails; the query holds key `name`/`teamOwner`/`pool`/`plan` exactly when that criterion is non-empty, with that criterion as its only value, and no other key |
| `Filtering.Filter` | tsuru/client/volume.go:247-274 | the filtered sequence is no longer than the input and every element of it passes every active criterion |
| `Filtering.ClientSideFilter` | tsuru/client/volume.go:247-274 | the single loop with its `insert` flag computes exactly `Filter` of its input |
| `Filtering.FilterMembers` | tsuru/client/volume.go:251-270 | a volume is in the result if and only if it is in the input and (name empty or contained in its name), (pool empty or equal), (plan empty or equal to its plan's name), (team empty or equal to its owner) |
| `Filtering.EmptyFilterKeepsAll` | tsuru/client/volume.go:247-274 | with all four criteria empty the result is the input, same elements in the same order |
| `Filtering.FilterIsSubsequence` | tsuru/client/volume.go:248-273 | the result is the input read at strictly increasing positions, elements unaltered; a position is kept if and only if its volume passes |
| `Filtering.FilterIdempotent` | tsuru/client/volume.go:250-271 | filtering the result again with the same filter returns it unchanged |
| `Filtering.FilterAppend` | tsuru/client/volume.go:250-271 | filtering a concatenation is concatenating the filtered parts (the pass treats each volume on its own) |
| `Text.ContainsAt` | tsuru/client/volume.go:252 | the name test holds if and only if the criterion is a prefix of some suffix of the name; the empty criterion is contained in every name |
| `VolumeListCmd.Render` | tsuru/client/volume.go:276-302 | simplified gives exactly the names in input order, whatever json says; otherwise json gives the volumes unchanged; otherwise a Name/Plan/Pool/Team table with one row per volume, sorted by all columns |
| `VolumeListCmd.Run` | tsuru/client/volume.go:211-245 | the query carries exactly the non-empty criteria; a transport or decode error is returned; 204 gives "No volumes available."; decoded volumes are filtered on the client before being shown as `Render` promises |
| `VolumeListCmd.SimplifiedWins` | tsuru/client/volume.go:277-282 | with simplified and json both set, only names are shown, each the name of a returned volume that passes the filter |
| `Tables.SortRows` | tsuru/client/volume.go:299 | the rows handed to the table come out sorted by the requested columns and as a permutation of the rows added |
| `Tables.RowsSortedPairwise` | tsuru/client/volume.go:461 | in sorted rows every earlier row is at most every later one in the sort columns, not only its neighbour |
| `Tables.OrderedByTwoColumns` | tsuru/client/volume.go:461 | rows sorted by columns 0 and 1 have non-decreasing plan names, and non-decreasing provisioners among equal plan names |
| `Text.SortStrings` | tsuru/client/volume.go:453 | the option lines come out ascending and as a permutation of the lines gathered |
| `Text.SortedStringsUnique` | tsuru/client/volume.go:449-453 | two sorted permutations of the same lines are equal, so the cell does not depend on the map's iteration order |
| `VolumeInfoCmd.BindRows` | tsuru/client/volume.go:370-379 | one row per bind in bind order: application, mount point, and "ro" if and only if read-only, "rw" if and only if not; no binds give no rows |
| `VolumeInfoCmd.KeyValueRows` | tsuru/client/volume.go:382-397 | the key/value rows are the map's entries, sorted |
| `VolumeInfoCmd.EntriesMembers` | tsuru/client/volume.go:385-387 | a key/value row is present if and only if it is a key of the map next to its value |
| `VolumeInfoCmd.EntriesCount` | tsuru/client/volume.go:394-396 | there is one key/value row per key |
| `VolumeInfoCmd.Render` | tsuru/client/volume.go:363-401 | the view is the four Name/Plan/Pool/Team lines, the bind table, the sorted plan option table and the sorted option table |
| `VolumeInfoCmd.Run` | tsuru/client/volume.go:327-361 | transport and decode errors are returned; 204 gives "No volumes available."; with json the decoded volume itself is shown, otherwise the text view |
| `MapIteration.FlattenPick` | tsuru/client/volume.go:450 | ranging over a map may take any key next and still gathers the same multiset of pieces |
| `MapIteration.FlattenMembers` | tsuru/client/volume.go:447 | what ranging over a map gathers is exactly what some key's piece holds |
| `MapIteration.FlattenLength` | tsuru/client/volume.go:385 | ranging over a map with one piece per key gathers as many elements as keys |
| `VolumePlansCmd.OptLinesMeaning` | tsuru/client/volume.go:450-452 | one option line per option, and a line is present if and only if it is some key, ": ", then that key's value |
| `VolumePlansCmd.GatherOptLines` | tsuru/client/volume.go:449-452 | the loop over a plan's options gathers exactly one "key: value" line per option, whatever order the map gives them |
| `VolumePlansCmd.OptsCell` | tsuru/client/volume.go:449-457 | the options cell, gathered in any map order, is the sorted option lines joined by "\n" |
| `VolumePlansCmd.SingleOptionCell` | tsuru/client/volume.go:449-457 | a plan with the one option k = v shows the cell "k: v" |
| `VolumePlansCmd.AllPlanRowsMembers` | tsuru/client/volume.go:447-460 | a row is present if and only if it is the (plan name, provisioner, options cell) row of some plan listed under some provisioner |
| `VolumePlansCmd.AddProvisionerRows` | tsuru/client/volume.go:448-459 | one row per plan of the provisioner, in the order listed |
| `VolumePlansCmd.Render` | tsuru/client/volume.go:443-464 | the Plan/Provisioner/Opts table has one row per (provisioner, plan) pair, ordered by plan name, then provisioner |
| `VolumePlansCmd.Run` | tsuru/client/volume.go:415-441 | transport and decode errors are returned; 204 gives the table with headers and no rows; decoded plans are rendered |

## Left out

- The create, update, delete, bind and unbind commands (tsuru/client/volume.go:57-150, 478-630) are left out. They only build a request, send it and print a fixed confirmation line; none of their logic is modelled.
- Building URLs and requests, sending them, reading status codes, and streaming JSON responses are network I/O. They are left out; a command receives their result as a `Response` parameter.
- JSON decoding and the JSON printer are foreign libraries and are left out. A decoded value is a parameter, and JSON output is modelled as the value shown.
- Form encoding and the percent-encoding of query strings are foreign libraries and are left out. A query is an abstract map.
- The table printer's text layout (column widths, line separators) is left out. Only the header row, the rows and their order are modelled.
- Flag definitions, command metadata, the app-name mix-in and raw-output switching are left out. The settings a flag parser would fill in are plain parameters.
- Plan option values are of any type in the source and are printed with `%v`. They are modelled as already-formatted strings.
- The order of rows that tie on the sort columns is left open; only sortedness and permutation are stated.
- String order compares characters. Go compares UTF-8 bytes, which gives the same order on valid text.
