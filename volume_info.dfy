/**
 * `volume info`: one volume as JSON, or as a summary of its fields followed
 * by three tables: its binds (in the order the server lists them), its
 * plan's options and its own options (each sorted).
 */
module VolumeInfoCmd {
  import opened VolumeTypes
  import opened Tables
  import opened MapIteration

  const BindHeaders: Row := ["App", "MountPoint", "Mode"]
  const KeyValueHeaders: Row := ["Key", "Value"]
  const KeyValueColumns: seq<nat> := [0, 1]

  /** `rows` has one row per bind, in order: its application, its mount point, and "ro" exactly when it is read-only, "rw" otherwise. */
  ghost predicate BindRowsFor(binds: seq<Bind>, rows: seq<Row>)
  {
    && |rows| == |binds|
    && forall i :: 0 <= i < |binds| ==>
         && |rows[i]| == 3
         && rows[i][0] == binds[i].ID.App
         && rows[i][1] == binds[i].ID.MountPoint
         && (rows[i][2] == "ro" <==> binds[i].ReadOnly)
         && (rows[i][2] == "rw" <==> !binds[i].ReadOnly)
  }

  method BindRows(binds: seq<Bind>) returns (rows: seq<Row>)
    ensures BindRowsFor(binds, rows)
  {
    rows := [];
    for i := 0 to |binds|
      invariant BindRowsFor(binds[..i], rows)
    {
      var b := binds[i];
      var mode := "rw";
      if b.ReadOnly {
        mode := "ro";
      }
      rows := rows + [[b.ID.App, b.ID.MountPoint, mode]];
    }
    assert binds[..|binds|] == binds;
  }

  function EntryRow(k: string, v: string): seq<Row>
  {
    [[k, v]]
  }

  /** One [key, value] row per entry of `m`, in an unspecified order. */
  ghost function Entries(m: map<string, string>): seq<Row>
  {
    Flatten(m, EntryRow)
  }

  /** A row is an entry row exactly when it is some key of `m` next to its value. */
  lemma EntriesMembers(m: map<string, string>, r: Row)
    ensures r in Entries(m) <==> exists k :: k in m && r == [k, m[k]]
  {
    FlattenMembers(m, EntryRow, r);
    if r in Entries(m) {
      var k :| k in m && r in EntryRow(k, m[k]);
      assert r == [k, m[k]];
    }
  }

  /** A map gives one entry row per key. */
  lemma EntriesCount(m: map<string, string>)
    ensures |Entries(m)| == |m|
  {
    FlattenLength(m, EntryRow);
  }

  /** The rows of a key/value table: the entries of `m`, sorted. */
  method KeyValueRows(m: map<string, string>) returns (rows: seq<Row>)
    ensures RowsSorted(KeyValueColumns, rows)
    ensures multiset(rows) == multiset(Entries(m))
  {
    var added: seq<Row> := [];
    var rest := m;
    while rest != map[]
      invariant multiset(added) + multiset(Entries(rest)) == multiset(Entries(m))
      decreases |rest|
    {
      var k :| k in rest;
      FlattenPick(rest, EntryRow, k);
      added := added + [[k, rest[k]]];
      assert (rest - {k}).Keys == rest.Keys - {k};
      rest := rest - {k};
    }
    assert Entries(rest) == [];
    rows := SortRows(KeyValueColumns, added);
  }

  datatype InfoView = InfoView(summary: seq<string>, binds: Table, planOpts: Table, opts: Table)

  datatype InfoOutput = InfoJson(volume: Volume) | InfoText(view: InfoView)

  /** `t` lists the entries of `m` under the Key and Value headers, sorted. */
  ghost predicate KeyValueTableOf(m: map<string, string>, t: Table)
  {
    && t.headers == KeyValueHeaders
    && RowsSorted(KeyValueColumns, t.rows)
    && multiset(t.rows) == multiset(Entries(m))
  }

  /** The text view of `v`: the four summary lines, then the bind, plan option and option tables. */
  ghost predicate InfoViewOf(v: Volume, view: InfoView)
  {
    && view.summary == ["Name: " + v.Name, "Plan: " + v.Plan.Name, "Pool: " + v.Pool, "Team: " + v.TeamOwner]
    && view.binds.headers == BindHeaders && BindRowsFor(v.Binds, view.binds.rows)
    && KeyValueTableOf(v.Plan.Opts, view.planOpts)
    && KeyValueTableOf(v.Opts, view.opts)
  }

  method Render(v: Volume) returns (view: InfoView)
    ensures InfoViewOf(v, view)
  {
    var summary := ["Name: " + v.Name, "Plan: " + v.Plan.Name, "Pool: " + v.Pool, "Team: " + v.TeamOwner];
    var bindRows := BindRows(v.Binds);
    var planOptRows := KeyValueRows(v.Plan.Opts);
    var optRows := KeyValueRows(v.Opts);
    view := InfoView(summary, Table(BindHeaders, bindRows), Table(KeyValueHeaders, planOptRows), Table(KeyValueHeaders, optRows));
  }

  /** The whole command for one server response. */
  method Run(json: bool, rsp: Response<Volume>) returns (out: Outcome<InfoOutput>)
    ensures rsp.TransportError? ==> out == Failed(rsp.error)
    ensures rsp.NoContent? ==> out == Message(NoVolumesMessage)
    ensures rsp.Body? && rsp.decoded.Failure? ==> out == Failed(rsp.decoded.error)
    ensures rsp.Body? && rsp.decoded.Success? && json ==> out == Shown(InfoJson(rsp.decoded.value))
    ensures rsp.Body? && rsp.decoded.Success? && !json ==>
      out.Shown? && out.view.InfoText? && InfoViewOf(rsp.decoded.value, out.view.view)
  {
    match rsp
    case TransportError(e) =>
      out := Failed(e);
    case NoContent =>
      out := Message(NoVolumesMessage);
    case Body(Failure(e)) =>
      out := Failed(e);
    case Body(Success(volume)) =>
      if json {
        out := Shown(InfoJson(volume));
      } else {
        var view := Render(volume);
        out := Shown(InfoText(view));
      }
  }
}
