/** Project naming for timesheet projects created from a sale (`_timesheet_create_project` on
    `sale.order.line`): each created project is renamed after its order and customer. */
module ProjectNames {
  import opened Wrappers
  import Text
  import Orm
  import Partners

  datatype Project = Project(name: string)

  /** The fields of a sale order read here: its `name` and its `partner_id`. */
  datatype OrderHeader = OrderHeader(name: string, partner: Option<nat>)

  /** A sale order line after the projects were created: its `project_id` and `order_id`. */
  datatype SaleLine = SaleLine(project: Option<nat>, order: nat)

  /** The new name: "<order> - <tax id> - <customer>", each part falling back to a placeholder
      when the field is empty. */
  function ProjectName(order: OrderHeader, p: Partners.Partner): string {
    Text.Or(order.name, "SXXXXX") + " - " + Text.Or(p.vat, "SIN-CUIT") + " - " + Text.Or(p.name, "Sin nombre")
  }

  /** The references the loop follows exist. */
  predicate Linked(rows: map<nat, Project>, lines: seq<SaleLine>, orders: map<nat, OrderHeader>,
                   partners: map<nat, Partners.Partner>) {
    && (forall i :: 0 <= i < |lines| ==> lines[i].order in orders)
    && (forall i :: 0 <= i < |lines| && lines[i].project.Some? ==> lines[i].project.value in rows)
    && (forall k :: k in orders && orders[k].partner.Some? ==> orders[k].partner.value in partners)
  }

  /** A line renames its project when it has one and its order has a customer. */
  predicate Renames(l: SaleLine, orders: map<nat, OrderHeader>)
    requires l.order in orders
  {
    l.project.Some? && orders[l.order].partner.Some?
  }

  /** The name line `l` gives its project. */
  function NameFor(l: SaleLine, orders: map<nat, OrderHeader>, partners: map<nat, Partners.Partner>): string
    requires l.order in orders && orders[l.order].partner.Some? && orders[l.order].partner.value in partners
  {
    var o := orders[l.order];
    ProjectName(o, partners[o.partner.value])
  }

  /** The projects after the loop has handled `lines`. */
  function Renamed(rows: map<nat, Project>, lines: seq<SaleLine>, orders: map<nat, OrderHeader>,
                   partners: map<nat, Partners.Partner>): (r: map<nat, Project>)
    requires Linked(rows, lines, orders, partners)
    ensures r.Keys == rows.Keys
  {
    if lines == [] then rows
    else
      var n := |lines| - 1;
      var before := Renamed(rows, lines[..n], orders, partners);
      var l := lines[n];
      if Renames(l, orders) then before[l.project.value := Project(NameFor(l, orders, partners))] else before
  }

  /** `_timesheet_create_project`, after the projects exist: the loop over the lines. */
  method RenameProjects(projects: Orm.Table<Project>, lines: seq<SaleLine>, orders: map<nat, OrderHeader>,
                        partners: map<nat, Partners.Partner>)
    requires Linked(projects.rows, lines, orders, partners)
    modifies projects
    ensures projects.nextId == old(projects.nextId)
    ensures projects.rows == Renamed(old(projects.rows), lines, orders, partners)
  {
    var i := 0;
    while i < |lines|
      invariant 0 <= i <= |lines|
      invariant projects.nextId == old(projects.nextId)
      invariant projects.rows == Renamed(old(projects.rows), lines[..i], orders, partners)
    {
      assert lines[..i + 1][..i] == lines[..i];
      var l := lines[i];
      if l.project.Some? && orders[l.order].partner.Some? {
        var o := orders[l.order];
        projects.rows := projects.rows[l.project.value := Project(ProjectName(o, partners[o.partner.value]))];
      }
      i := i + 1;
    }
    assert lines[..i] == lines;
  }

  /** The last line of `lines` that renames project `p`, if any. */
  function LastRenaming(lines: seq<SaleLine>, orders: map<nat, OrderHeader>, p: nat): (r: Option<nat>)
    requires forall i :: 0 <= i < |lines| ==> lines[i].order in orders
    ensures r.Some? ==> r.value < |lines| && Renames(lines[r.value], orders) && lines[r.value].project == Some(p)
    ensures r.Some? ==> forall j :: r.value < j < |lines| ==> !(Renames(lines[j], orders) && lines[j].project == Some(p))
    ensures r.None? ==> forall j :: 0 <= j < |lines| ==> !(Renames(lines[j], orders) && lines[j].project == Some(p))
  {
    if lines == [] then None
    else
      var n := |lines| - 1;
      if Renames(lines[n], orders) && lines[n].project == Some(p) then Some(n)
      else
        assert forall j :: 0 <= j < n ==> lines[..n][j] == lines[j];
        LastRenaming(lines[..n], orders, p)
  }

  /** A project ends up named after the last line that renames it, whatever its old name was,
      and keeps its name when no line renames it. */
  lemma {:induction false} RenamedByLastLine(rows: map<nat, Project>, lines: seq<SaleLine>, orders: map<nat, OrderHeader>,
                                             partners: map<nat, Partners.Partner>, p: nat)
    requires Linked(rows, lines, orders, partners) && p in rows
    ensures var last := LastRenaming(lines, orders, p);
      && (last.None? ==> Renamed(rows, lines, orders, partners)[p] == rows[p])
      && (last.Some? ==> Renamed(rows, lines, orders, partners)[p] == Project(NameFor(lines[last.value], orders, partners)))
  {
    if lines != [] {
      var n := |lines| - 1;
      assert forall j :: 0 <= j < n ==> lines[..n][j] == lines[j];
      RenamedByLastLine(rows, lines[..n], orders, partners, p);
    }
  }
}
