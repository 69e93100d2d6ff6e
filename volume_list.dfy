/**
 * `volume list`: query the server with the filter, filter the volumes it
 * returns once more on the client, then show them as names only, as JSON,
 * or as a table, in that order of precedence.
 */
module VolumeListCmd {
  import opened VolumeTypes
  import opened Tables
  import opened Filtering

  /** The command's settings, as the flag parser leaves them. */
  datatype VolumeList = VolumeList(filter: VolumeFilter, simplified: bool, json: bool)

  /** The three shapes of the list output. */
  datatype ListOutput =
    | Names(lines: seq<string>)
    | Json(volumes: seq<Volume>)
    | TableView(table: Table)

  const ListHeaders: Row := ["Name", "Plan", "Pool", "Team"]
  const ListSortColumns: seq<nat> := [0, 1, 2, 3]

  function NamesOf(vs: seq<Volume>): seq<string>
  {
    seq(|vs|, i requires 0 <= i < |vs| => vs[i].Name)
  }

  function ListRow(v: Volume): Row
  {
    [v.Name, v.Plan.Name, v.Pool, v.TeamOwner]
  }

  function ListRowsOf(vs: seq<Volume>): seq<Row>
  {
    seq(|vs|, i requires 0 <= i < |vs| => ListRow(vs[i]))
  }

  /**
   * `out` shows `vs` as `c` asks: names only when simplified is set (JSON
   * or not), JSON when only json is set, the table otherwise; the names in
   * the order of `vs`, the JSON unchanged, the table rows one per volume,
   * sorted by all four columns.
   */
  ghost predicate ShowsAs(c: VolumeList, vs: seq<Volume>, out: ListOutput)
  {
    && (out.Names? <==> c.simplified)
    && (out.Json? <==> !c.simplified && c.json)
    && (out.TableView? <==> !c.simplified && !c.json)
    && (out.Names? ==> out.lines == NamesOf(vs))
    && (out.Json? ==> out.volumes == vs)
    && (out.TableView? ==>
          && out.table.headers == ListHeaders
          && RowsSorted(ListSortColumns, out.table.rows)
          && multiset(out.table.rows) == multiset(ListRowsOf(vs)))
  }

  method Render(c: VolumeList, volumes: seq<Volume>) returns (out: ListOutput)
    ensures ShowsAs(c, volumes, out)
  {
    if c.simplified {
      var lines: seq<string> := [];
      for i := 0 to |volumes|
        invariant |lines| == i
        invariant forall k :: 0 <= k < i ==> lines[k] == volumes[k].Name
      {
        lines := lines + [volumes[i].Name];
      }
      return Names(lines);
    }
    if c.json {
      return Json(volumes);
    }
    var rows: seq<Row> := [];
    for i := 0 to |volumes|
      invariant |rows| == i
      invariant forall k :: 0 <= k < i ==> rows[k] == ListRow(volumes[k])
    {
      var v := volumes[i];
      rows := rows + [[v.Name, v.Plan.Name, v.Pool, v.TeamOwner]];
    }
    assert rows == ListRowsOf(volumes);
    return TableView(Table(ListHeaders, SortRows(ListSortColumns, rows)));
  }

  /**
   * The whole command for one server response: the query sent carries the
   * non-empty criteria; 204 gives the fixed message; an error ends the
   * command; decoded volumes are filtered on the client and then shown.
   */
  method Run(c: VolumeList, rsp: Response<seq<Volume>>) returns (query: Query, out: Outcome<ListOutput>)
    ensures QueryFor(c.filter, query)
    ensures rsp.TransportError? ==> out == Failed(rsp.error)
    ensures rsp.NoContent? ==> out == Message(NoVolumesMessage)
    ensures rsp.Body? && rsp.decoded.Failure? ==> out == Failed(rsp.decoded.error)
    ensures rsp.Body? && rsp.decoded.Success? ==>
      out.Shown? && ShowsAs(c, Filter(c.filter, rsp.decoded.value), out.view)
  {
    var qs := QueryString(c.filter);
    query := qs.value;
    match rsp
    case TransportError(e) =>
      out := Failed(e);
    case NoContent =>
      out := Message(NoVolumesMessage);
    case Body(Failure(e)) =>
      out := Failed(e);
    case Body(Success(volumes)) =>
      var kept := ClientSideFilter(c.filter, volumes);
      var view := Render(c, kept);
      out := Shown(view);
  }

  /** `name` is the name of a volume of `vs` that passes `f`. */
  ghost predicate NameOfPassing(f: VolumeFilter, vs: seq<Volume>, name: string)
  {
    exists v :: v in vs && Matches(f, v) && name == v.Name
  }

  /** Asking for names only and JSON together gives only the names of volumes that pass. */
  lemma SimplifiedWins(c: VolumeList, vs: seq<Volume>, out: ListOutput)
    requires c.simplified && c.json
    requires ShowsAs(c, Filter(c.filter, vs), out)
    ensures out.Names?
    ensures forall i :: 0 <= i < |out.lines| ==> NameOfPassing(c.filter, vs, out.lines[i])
  {
    var kept := Filter(c.filter, vs);
    assert out.lines == NamesOf(kept);
    forall i | 0 <= i < |out.lines|
      ensures NameOfPassing(c.filter, vs, out.lines[i])
    {
      FilterMembers(c.filter, vs, kept[i]);
    }
  }
}
