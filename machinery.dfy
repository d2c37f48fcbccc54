/** The machinery screen: maintenance records of the plant's machines, the
    cost cards and one summary card per machine. */
module Machinery {
  import opened Wrappers
  import opened Text
  import opened Ledger
  import opened Search
  import opened Dates

  /** The maintenance form; the cost as `Number.parseFloat` reads it (`None` is NaN). */
  datatype MaintenanceForm = MaintenanceForm(
    machineId: string, cost: Option<real>, description: string, maintenanceType: string, maintenanceDate: string)

  /** The form as it is opened and reset: type "routine", today's ISO date, the rest empty. */
  function BlankForm(today: Date): (f: MaintenanceForm)
    ensures f.machineId == "" && f.description == "" && f.cost.None?
    ensures f.maintenanceType == "routine"
    ensures f.maintenanceDate == Iso(today)
  {
    MaintenanceForm("", None, "", "routine", Iso(today))
  }

  /** The row `handleSubmit` inserts: every field as entered, the cost parsed. */
  datatype MaintenanceInsert = MaintenanceInsert(
    machineId: string, maintenanceDate: string, cost: Option<real>, description: string, maintenanceType: string)

  function NewMaintenance(form: MaintenanceForm): (r: MaintenanceInsert)
    ensures r.machineId == form.machineId && r.maintenanceDate == form.maintenanceDate
    ensures r.cost == form.cost && r.description == form.description && r.maintenanceType == form.maintenanceType
  {
    MaintenanceInsert(form.machineId, form.maintenanceDate, form.cost, form.description, form.maintenanceType)
  }

  datatype Machine = Machine(name: string, machineType: string)

  /** A maintenance record as the screen holds it, with the machine name joined in. */
  datatype Maintenance = Maintenance(
    machineName: string, maintenanceDate: string, cost: real, description: string, maintenanceType: string)

  function MachineNameOf(m: Maintenance): string { m.machineName }
  function DescriptionOf(m: Maintenance): string { m.description }
  function CostOf(m: Maintenance): real { m.cost }
  function MaintenanceDateOf(m: Maintenance): string { m.maintenanceDate }

  /** `filteredMaintenance`: by machine name or description. */
  function FilteredMaintenance(records: seq<Maintenance>, term: string): (r: seq<Maintenance>)
    ensures IsSubsequence(r, records)
    ensures forall i :: 0 <= i < |r| ==> r[i] in records && Matches(MachineNameOf, DescriptionOf, term)(r[i])
    ensures forall i :: 0 <= i < |records| && Matches(MachineNameOf, DescriptionOf, term)(records[i]) ==> records[i] in r
  {
    SearchRows(records, MachineNameOf, DescriptionOf, term)
  }

  /** "Total Maintenance Cost". */
  function TotalMaintenanceCost(records: seq<Maintenance>): real {
    Sum(records, CostOf)
  }

  /** "This Month": the records whose date has today's month and year. */
  function ThisMonthCost(records: seq<Maintenance>, today: Date): real {
    Sum(Filter(records, DatedIn(MaintenanceDateOf, YearMonth(today.year, today.month))), CostOf)
  }

  /** With costs that are never negative, this month's cost is at most the total. */
  lemma ThisMonthWithinTotal(records: seq<Maintenance>, today: Date)
    requires forall m :: m in records ==> m.cost >= 0.0
    ensures ThisMonthCost(records, today) <= TotalMaintenanceCost(records)
  {
    FilterSumsLess(records, CostOf, DatedIn(MaintenanceDateOf, YearMonth(today.year, today.month)));
  }

  function NameOfMachine(m: Machine): string { m.name }

  function MachineNames(machines: seq<Machine>): seq<string> {
    KeysOf(machines, NameOfMachine)
  }

  /** `machineStats`: per machine, in the order of `machines`, the total cost,
      the number of records and the date of the latest one (or "Never"). */
  function MachineStats(machines: seq<Machine>, records: seq<Maintenance>): (stats: seq<KeyStat<string>>)
    ensures |stats| == |machines|
    ensures forall i :: 0 <= i < |machines| ==> stats[i].key == machines[i].name
  {
    StatsByKey(MachineNames(machines), records, MachineNameOf, CostOf, MaintenanceDateOf)
  }

  /** With distinct machine names and every record on a listed machine, the
      machine cards' costs add up to the total cost and their counts to the
      number of records. */
  lemma MachineStatsPartition(machines: seq<Machine>, records: seq<Maintenance>)
    requires Distinct(MachineNames(machines))
    requires forall m :: m in records ==> m.machineName in MachineNames(machines)
    ensures Sum(MachineStats(machines, records), StatTotal) == TotalMaintenanceCost(records)
    ensures CountTotal(MachineStats(machines, records)) == |records|
  {
    StatsByKeyPartition(MachineNames(machines), records, MachineNameOf, CostOf, MaintenanceDateOf);
  }

  /** On records fetched newest first, a machine's "Last Maintenance" is on
      or after every record of that machine; a machine without records shows
      "Never", a cost of 0 and no records. */
  lemma LastMaintenanceIsLatest(machines: seq<Machine>, records: seq<Maintenance>, i: int)
    requires 0 <= i < |machines|
    ensures var s := MachineStats(machines, records)[i];
      && (NewestFirst(records, MaintenanceDateOf) && s.last != "Never" ==>
            forall m :: m in records && m.machineName == machines[i].name ==> LexLe(m.maintenanceDate, s.last))
      && ((forall j :: 0 <= j < |records| ==> records[j].machineName != machines[i].name) ==>
            s.last == "Never" && s.total == 0.0 && s.count == 0)
  {
    StatLastIsLatest(MachineNames(machines), records, MachineNameOf, CostOf, MaintenanceDateOf, i);
  }

  /** The machine type under a card's title: `type.replace("_", " ")`. */
  function TypeLabel(machineType: string): (shown: string)
    ensures |shown| == |machineType|
    ensures '_' !in machineType ==> shown == machineType
    ensures '_' in machineType ==> exists k :: FirstReplacedAt(machineType, '_', ' ', shown, k)
  {
    ReplaceFirstSpec(machineType, '_', ' ');
    ReplaceFirst(machineType, '_', ' ')
  }

  /** Only the first underscore becomes a space: a later underscore (as in
      "ball_mill_2") is shown as is. */
  lemma OnlyFirstUnderscoreReplaced(machineType: string, first: int, later: int)
    requires 0 <= first < later < |machineType|
    requires machineType[first] == '_' && machineType[later] == '_'
    requires forall j :: 0 <= j < first ==> machineType[j] != '_'
    ensures TypeLabel(machineType)[first] == ' '
    ensures TypeLabel(machineType)[later] == '_'
  {
    assert machineType[first] in machineType;
    var k :| FirstReplacedAt(machineType, '_', ' ', TypeLabel(machineType), k);
    assert k == first;
  }
}
