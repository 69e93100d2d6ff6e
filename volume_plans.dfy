/**
 * `volume plan list`: the plans the server offers, grouped by provisioner,
 * as one table row per (provisioner, plan) pair holding the plan name, the
 * provisioner and the plan's options, the rows ordered by plan name and
 * then by provisioner.
 */
module VolumePlansCmd {
  import opened Text
  import opened VolumeTypes
  import opened Tables
  import opened MapIteration

  const PlanHeaders: Row := ["Plan", "Provisioner", "Opts"]
  const PlanSortColumns: seq<nat> := [0, 1]

  /** The text of one option: its key, a colon and a space, its value. */
  function OptLine(k: string, v: string): string
  {
    k + ": " + v
  }

  function OptPiece(k: string, v: string): seq<string>
  {
    [OptLine(k, v)]
  }

  /** One option line per entry of `opts`, in an unspecified order. */
  ghost function OptLines(opts: map<string, string>): seq<string>
  {
    Flatten(opts, OptPiece)
  }

  /** The options cell: the option lines sorted and joined by line breaks. */
  ghost function OptsCellOf(opts: map<string, string>): string
  {
    Join(SortStrings(OptLines(opts)), "\n")
  }

  /** The option lines are exactly "key: value" for the entries of `opts`, one per key. */
  lemma OptLinesMeaning(opts: map<string, string>, line: string)
    ensures |OptLines(opts)| == |opts|
    ensures line in OptLines(opts) <==> exists k :: k in opts && line == k + ": " + opts[k]
  {
    FlattenLength(opts, OptPiece);
    FlattenMembers(opts, OptPiece, line);
  }

  /** The first loop of the options cell: one line per option, in whatever order the map gives them. */
  method GatherOptLines(opts: map<string, string>) returns (lines: seq<string>)
    ensures multiset(lines) == multiset(OptLines(opts))
  {
    lines := [];
    var rest := opts;
    while rest != map[]
      invariant multiset(lines) + multiset(OptLines(rest)) == multiset(OptLines(opts))
      decreases |rest|
    {
      var k :| k in rest;
      FlattenPick(rest, OptPiece, k);
      lines := lines + [OptLine(k, rest[k])];
      assert (rest - {k}).Keys == rest.Keys - {k};
      rest := rest - {k};
    }
    assert OptLines(rest) == [];
  }

  /**
   * The options cell of one plan: its lines are gathered in whatever order
   * the map gives them, then sorted, so the cell does not depend on that
   * order.
   */
  method OptsCell(opts: map<string, string>) returns (cell: string)
    ensures cell == OptsCellOf(opts)
  {
    var lines := GatherOptLines(opts);
    var sorted := SortStrings(lines);
    SortedStringsUnique(sorted, SortStrings(OptLines(opts)));
    cell := Join(sorted, "\n");
  }

  /** A plan with a single option shows just that option's line. */
  lemma SingleOptionCell(k: string, v: string)
    ensures OptsCellOf(map[k := v]) == k + ": " + v
  {
    var m := map[k := v];
    var lines := OptLines(m);
    OptLinesMeaning(m, lines[0]);
    assert k in m;
    assert lines == [OptLine(k, v)];
    assert SortStrings(lines) == lines;
  }

  /** The row of plan `p` offered by `provisioner`. */
  ghost function PlanRow(provisioner: string, p: VolumePlan): Row
  {
    [p.Name, provisioner, OptsCellOf(p.Opts)]
  }

  ghost function ProvisionerRows(provisioner: string, plans: seq<VolumePlan>): seq<Row>
  {
    seq(|plans|, i requires 0 <= i < |plans| => PlanRow(provisioner, plans[i]))
  }

  /** One row per (provisioner, plan) pair, in an unspecified order. */
  ghost function AllPlanRows(plans: map<string, seq<VolumePlan>>): seq<Row>
  {
    Flatten(plans, ProvisionerRows)
  }

  lemma ProvisionerRowsSnoc(provisioner: string, plans: seq<VolumePlan>, i: int)
    requires 0 <= i < |plans|
    ensures ProvisionerRows(provisioner, plans[..i + 1])
         == ProvisionerRows(provisioner, plans[..i]) + [PlanRow(provisioner, plans[i])]
  {
  }

  lemma ProvisionerRowsMembers(provisioner: string, plans: seq<VolumePlan>, r: Row)
    ensures r in ProvisionerRows(provisioner, plans) <==> exists i :: 0 <= i < |plans| && r == PlanRow(provisioner, plans[i])
  {
    if r in ProvisionerRows(provisioner, plans) {
      var i :| 0 <= i < |plans| && ProvisionerRows(provisioner, plans)[i] == r;
    }
    if exists i :: 0 <= i < |plans| && r == PlanRow(provisioner, plans[i]) {
      var i :| 0 <= i < |plans| && r == PlanRow(provisioner, plans[i]);
      assert ProvisionerRows(provisioner, plans)[i] == r;
    }
  }

  /** A row is a plan row exactly when it is the row of some plan listed under some provisioner. */
  lemma AllPlanRowsMembers(plans: map<string, seq<VolumePlan>>, r: Row)
    ensures r in AllPlanRows(plans) <==>
      exists prov, i :: prov in plans && 0 <= i < |plans[prov]| && r == PlanRow(prov, plans[prov][i])
  {
    FlattenMembers(plans, ProvisionerRows, r);
    if r in AllPlanRows(plans) {
      var prov :| prov in plans && r in ProvisionerRows(prov, plans[prov]);
      ProvisionerRowsMembers(prov, plans[prov], r);
    }
    if exists prov, i :: prov in plans && 0 <= i < |plans[prov]| && r == PlanRow(prov, plans[prov][i]) {
      var prov, i :| prov in plans && 0 <= i < |plans[prov]| && r == PlanRow(prov, plans[prov][i]);
      ProvisionerRowsMembers(prov, plans[prov], r);
    }
  }

  /** The inner loop of the table: one row per plan of one provisioner, in the order listed. */
  method AddProvisionerRows(provisioner: string, provPlans: seq<VolumePlan>) returns (rows: seq<Row>)
    ensures rows == ProvisionerRows(provisioner, provPlans)
  {
    rows := [];
    for i := 0 to |provPlans|
      invariant rows == ProvisionerRows(provisioner, provPlans[..i])
    {
      var p := provPlans[i];
      var cell := OptsCell(p.Opts);
      ProvisionerRowsSnoc(provisioner, provPlans, i);
      rows := rows + [[p.Name, provisioner, cell]];
    }
    assert provPlans[..|provPlans|] == provPlans;
  }

  /** The table: every (provisioner, plan) pair's row, ordered by plan name and then provisioner. */
  method Render(plans: map<string, seq<VolumePlan>>) returns (table: Table)
    ensures table.headers == PlanHeaders
    ensures RowsSorted(PlanSortColumns, table.rows)
    ensures multiset(table.rows) == multiset(AllPlanRows(plans))
  {
    var added: seq<Row> := [];
    var rest := plans;
    while rest != map[]
      invariant multiset(added) + multiset(AllPlanRows(rest)) == multiset(AllPlanRows(plans))
      decreases |rest|
    {
      var provisioner :| provisioner in rest;
      var rows := AddProvisionerRows(provisioner, rest[provisioner]);
      FlattenPick(rest, ProvisionerRows, provisioner);
      added := added + rows;
      assert (rest - {provisioner}).Keys == rest.Keys - {provisioner};
      rest := rest - {provisioner};
    }
    assert AllPlanRows(rest) == [];
    table := Table(PlanHeaders, SortRows(PlanSortColumns, added));
  }

  /**
   * The whole command for one server response: 204 means no plans and
   * gives a table without rows; an error ends the command.
   */
  method Run(rsp: Response<map<string, seq<VolumePlan>>>) returns (out: Outcome<Table>)
    ensures rsp.TransportError? ==> out == Failed(rsp.error)
    ensures rsp.Body? && rsp.decoded.Failure? ==> out == Failed(rsp.decoded.error)
    ensures rsp.NoContent? ==> out == Shown(Table(PlanHeaders, []))
    ensures rsp.Body? && rsp.decoded.Success? ==>
      && out.Shown? && out.view.headers == PlanHeaders
      && RowsSorted(PlanSortColumns, out.view.rows)
      && multiset(out.view.rows) == multiset(AllPlanRows(rsp.decoded.value))
  {
    match rsp
    case TransportError(e) =>
      out := Failed(e);
    case Body(Failure(e)) =>
      out := Failed(e);
    case NoContent =>
      var table := Render(map[]);
      assert AllPlanRows(map[]) == [];
      out := Shown(table);
    case Body(Success(plans)) =>
      var table := Render(plans);
      out := Shown(table);
  }
}
