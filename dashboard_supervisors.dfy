/** The "vendors per supervisor" chart of the dashboard: the active
    supervisor-vendor assignments grouped by supervisor name in a plain
    object, read back with `Object.values`. */
module DashboardSupervisors {
  import opened Common
  import opened Seqs
  import opened Records
  import opened Grouping

  datatype SupervisorVendedorCount = SupervisorVendedorCount(supervisor: string, vendedores: nat)

  predicate IsActive(a: AsignacionSupervisorVendedor) { a.asvEstadoDel }

  /** The grouping key: the supervisor name, or "Sin asignar" when empty. */
  function SupervisorName(a: AsignacionSupervisorVendedor): string {
    if a.nombreSupervisor != "" then a.nombreSupervisor else "Sin asignar"
  }

  /** The supervisors in the order the object lists them: array-index names
      first in ascending order, then the rest in first-seen order. */
  function SupervisorOrder(active: seq<AsignacionSupervisorVendedor>): seq<string> {
    PropertyOrder(FirstKeys(active, SupervisorName), ArrayIndex)
  }

  /** One entry per name of `names`, counting the assignments of that name. */
  function Chart(active: seq<AsignacionSupervisorVendedor>, names: seq<string>): (r: seq<SupervisorVendedorCount>)
    ensures |r| == |names|
    ensures forall i :: 0 <= i < |names| ==>
      r[i] == SupervisorVendedorCount(names[i], |GroupOf(active, SupervisorName, names[i])|)
  {
    if names == [] then []
    else [SupervisorVendedorCount(names[0], |GroupOf(active, SupervisorName, names[0])|)] + Chart(active, names[1..])
  }

  /** The chart the page means to draw: every supervisor of an active
      assignment once, with the number of active assignments under it. */
  function SupervisorChart(asignaciones: seq<AsignacionSupervisorVendedor>): seq<SupervisorVendedorCount> {
    var active := Filter(asignaciones, IsActive);
    Chart(active, SupervisorOrder(active))
  }

  function ChartNames(chart: seq<SupervisorVendedorCount>): (r: seq<string>)
    ensures |r| == |chart|
    ensures forall i :: 0 <= i < |chart| ==> r[i] == chart[i].supervisor
  {
    if chart == [] then [] else [chart[0].supervisor] + ChartNames(chart[1..])
  }

  /** The sum of the bars. */
  function TotalVendedores(chart: seq<SupervisorVendedorCount>): nat {
    if chart == [] then 0 else chart[0].vendedores + TotalVendedores(chart[1..])
  }

  /** `Object.values` of the grouping object whose keys, in enumeration
      order, are `order`. */
  function ValuesOf(counts: map<string, nat>, order: seq<string>): (r: seq<SupervisorVendedorCount>)
    requires forall j :: 0 <= j < |order| ==> order[j] in counts
    ensures |r| == |order|
    ensures forall j :: 0 <= j < |order| ==> r[j] == SupervisorVendedorCount(order[j], counts[order[j]])
  {
    if order == [] then [] else [SupervisorVendedorCount(order[0], counts[order[0]])] + ValuesOf(counts, order[1..])
  }

  /** The grouping object after the assignments `prefix`: its names in the
      order they were added, and the count under each. */
  ghost predicate Tally(prefix: seq<AsignacionSupervisorVendedor>, names: seq<string>, counts: map<string, nat>) {
    && names == FirstKeys(prefix, SupervisorName)
    && (forall n :: n in counts <==> n in names)
    && (forall n :: n in counts ==> counts[n] == |GroupOf(prefix, SupervisorName, n)|)
  }

  /** One step of the reduce keeps the tally. */
  lemma TallyStep(prefix: seq<AsignacionSupervisorVendedor>, a: AsignacionSupervisorVendedor,
                  names: seq<string>, counts: map<string, nat>,
                  names': seq<string>, counts': map<string, nat>)
    requires Tally(prefix, names, counts)
    requires var s := SupervisorName(a);
      names' == (if s in counts then names else names + [s])
    requires var s := SupervisorName(a);
      var base := if s in counts then counts else counts[s := 0];
      counts' == base[s := base[s] + 1]
    ensures Tally(prefix + [a], names', counts')
  {
    var t := prefix + [a];
    assert t[..|t| - 1] == prefix && t[|t| - 1] == a;
    assert FirstKeys(t, SupervisorName) == names';
    forall n | n in counts' ensures counts'[n] == |GroupOf(t, SupervisorName, n)| {
      TallyStepAt(prefix, a, names, counts, n);
    }
  }

  /** The count of one name after one step of the reduce. */
  lemma TallyStepAt(prefix: seq<AsignacionSupervisorVendedor>, a: AsignacionSupervisorVendedor,
                    names: seq<string>, counts: map<string, nat>, n: string)
    requires Tally(prefix, names, counts)
    requires n in counts || n == SupervisorName(a)
    ensures var s := SupervisorName(a);
      var base := if s in counts then counts else counts[s := 0];
      base[s := base[s] + 1][n] == |GroupOf(prefix + [a], SupervisorName, n)|
  {
    GroupOfAppend(prefix, [a], SupervisorName, n);
    GroupOfSingleton(a, SupervisorName, n);
    if n !in counts {
      GroupOfAbsent(prefix, SupervisorName, n);
    }
  }

  /** Reading the final tally back in enumeration order gives the chart. */
  lemma TallyValues(active: seq<AsignacionSupervisorVendedor>, names: seq<string>, counts: map<string, nat>)
    requires Tally(active, names, counts)
    ensures forall j :: 0 <= j < |PropertyOrder(names, ArrayIndex)| ==> PropertyOrder(names, ArrayIndex)[j] in counts
    ensures ValuesOf(counts, PropertyOrder(names, ArrayIndex)) == Chart(active, SupervisorOrder(active))
  {
    var order := PropertyOrder(names, ArrayIndex);
    assert order == SupervisorOrder(active);
    NamesInCounts(names, counts);
    CountsAreChart(active, counts, order);
  }

  lemma NamesInCounts(names: seq<string>, counts: map<string, nat>)
    requires forall n :: n in counts <==> n in names
    ensures forall j :: 0 <= j < |PropertyOrder(names, ArrayIndex)| ==> PropertyOrder(names, ArrayIndex)[j] in counts
  {
    var order := PropertyOrder(names, ArrayIndex);
    PropertyOrderPermutation(names, ArrayIndex);
    forall j | 0 <= j < |order| ensures order[j] in counts {
      assert order[j] in multiset(names);
    }
  }

  lemma CountsAreChart(active: seq<AsignacionSupervisorVendedor>, counts: map<string, nat>, order: seq<string>)
    requires forall j :: 0 <= j < |order| ==> order[j] in counts
    requires forall n :: n in counts ==> counts[n] == |GroupOf(active, SupervisorName, n)|
    ensures ValuesOf(counts, order) == Chart(active, order)
  {
    var values := ValuesOf(counts, order);
    var chart := Chart(active, order);
    forall j | 0 <= j < |order| ensures values[j] == chart[j] {
      assert counts[order[j]] == |GroupOf(active, SupervisorName, order[j])|;
    }
  }

  /** The `reduce` into an object keyed by supervisor name, with an entry
      created the first time a name is seen, then `Object.values`. The
      object is a map from name to count plus the names in the order they
      were added. */
  method GroupSupervisors(asignaciones: seq<AsignacionSupervisorVendedor>) returns (chart: seq<SupervisorVendedorCount>)
    ensures chart == SupervisorChart(asignaciones)
  {
    var active := Filter(asignaciones, IsActive);
    var names: seq<string> := [];
    var counts: map<string, nat> := map[];
    var i := 0;
    while i < |active|
      invariant 0 <= i <= |active|
      invariant Tally(active[..i], names, counts)
    {
      names, counts := CountOne(active[..i], active[i], names, counts);
      assert active[..i + 1] == active[..i] + [active[i]];
      i := i + 1;
    }
    assert active[..i] == active;
    TallyValues(active, names, counts);
    chart := ValuesOf(counts, PropertyOrder(names, ArrayIndex));
  }

  /** The reduce callback: the entry of the assignment's supervisor is
      created at 0 the first time the name is seen, then incremented. */
  method CountOne(ghost prefix: seq<AsignacionSupervisorVendedor>, asignacion: AsignacionSupervisorVendedor,
                  names: seq<string>, counts: map<string, nat>) returns (names': seq<string>, counts': map<string, nat>)
    requires Tally(prefix, names, counts)
    ensures Tally(prefix + [asignacion], names', counts')
  {
    var supervisor := SupervisorName(asignacion);
    names', counts' := names, counts;
    if supervisor !in counts' {
      names' := names' + [supervisor];
      counts' := counts'[supervisor := 0];
    }
    counts' := counts'[supervisor := counts'[supervisor] + 1];
    TallyStep(prefix, asignacion, names, counts, names', counts');
  }

  // ---------------------------------------------------------------------
  // Properties

  lemma ChartNamesOfChart(active: seq<AsignacionSupervisorVendedor>, names: seq<string>)
    ensures ChartNames(Chart(active, names)) == names
  {
  }

  /** The chart names each supervisor of an active assignment exactly once. */
  lemma SupervisorChartNames(asignaciones: seq<AsignacionSupervisorVendedor>)
    ensures Distinct(ChartNames(SupervisorChart(asignaciones)))
    ensures forall a :: a in asignaciones && a.asvEstadoDel ==> SupervisorName(a) in ChartNames(SupervisorChart(asignaciones))
  {
    var active := Filter(asignaciones, IsActive);
    var ks := FirstKeys(active, SupervisorName);
    PropertyOrderPermutation(ks, ArrayIndex);
    ChartNamesOfChart(active, SupervisorOrder(active));
    forall a | a in asignaciones && a.asvEstadoDel ensures SupervisorName(a) in SupervisorOrder(active) {
      FilterMembership(asignaciones, IsActive, a);
      FirstKeysMembers(active, SupervisorName, SupervisorName(a));
      assert SupervisorName(a) in multiset(ks);
    }
  }

  /** Each bar is a supervisor of some active assignment and is not empty. */
  lemma SupervisorChartBars(asignaciones: seq<AsignacionSupervisorVendedor>)
    ensures forall e :: e in SupervisorChart(asignaciones) ==>
      e.vendedores > 0 && exists a :: a in asignaciones && a.asvEstadoDel && SupervisorName(a) == e.supervisor
  {
    var active := Filter(asignaciones, IsActive);
    var ks := FirstKeys(active, SupervisorName);
    var order := SupervisorOrder(active);
    var chart := SupervisorChart(asignaciones);
    PropertyOrderPermutation(ks, ArrayIndex);
    forall e | e in chart
      ensures e.vendedores > 0 && exists a :: a in asignaciones && a.asvEstadoDel && SupervisorName(a) == e.supervisor
    {
      var i :| 0 <= i < |chart| && chart[i] == e;
      assert order[i] in multiset(ks);
      BarOfKey(asignaciones, order[i]);
    }
  }

  lemma BarOfKey(asignaciones: seq<AsignacionSupervisorVendedor>, name: string)
    requires name in FirstKeys(Filter(asignaciones, IsActive), SupervisorName)
    ensures |GroupOf(Filter(asignaciones, IsActive), SupervisorName, name)| > 0
    ensures exists a :: a in asignaciones && a.asvEstadoDel && SupervisorName(a) == name
  {
    var active := Filter(asignaciones, IsActive);
    FirstKeysMembers(active, SupervisorName, name);
    GroupOfSpec(active, SupervisorName, name);
    var j :| 0 <= j < |active| && SupervisorName(active[j]) == name;
    assert active[j] in active;
  }

  lemma {:induction false} TotalOfChart(active: seq<AsignacionSupervisorVendedor>, names: seq<string>)
    ensures TotalVendedores(Chart(active, names)) == |Flatten(Groups(active, SupervisorName, names))|
  {
    if names != [] {
      TotalOfChart(active, names[1..]);
      assert Chart(active, names)[1..] == Chart(active, names[1..]);
      assert Groups(active, SupervisorName, names)[1..] == Groups(active, SupervisorName, names[1..]);
    }
  }

  /** The bars add up to the number of active assignments: every active
      assignment is counted under exactly one supervisor. */
  lemma SupervisorChartTotal(asignaciones: seq<AsignacionSupervisorVendedor>)
    ensures TotalVendedores(SupervisorChart(asignaciones)) == Count(asignaciones, IsActive)
  {
    var active := Filter(asignaciones, IsActive);
    var ks := FirstKeys(active, SupervisorName);
    var order := SupervisorOrder(active);
    PropertyOrderPermutation(ks, ArrayIndex);
    FirstKeysCover(active, SupervisorName);
    forall i | 0 <= i < |active| ensures SupervisorName(active[i]) in order {
      assert SupervisorName(active[i]) in multiset(ks);
    }
    GroupsCover(active, SupervisorName, order);
    TotalOfChart(active, order);
    FilterLength(asignaciones, IsActive);
  }

  /** When no supervisor name is a canonical integer, which holds for names
      of people, the chart lists supervisors in the order first seen. */
  lemma SupervisorChartFirstSeen(asignaciones: seq<AsignacionSupervisorVendedor>)
    requires forall i :: 0 <= i < |asignaciones| ==> ArrayIndex(SupervisorName(asignaciones[i])).None?
    ensures ChartNames(SupervisorChart(asignaciones)) == FirstKeys(Filter(asignaciones, IsActive), SupervisorName)
  {
    var active := Filter(asignaciones, IsActive);
    var ks := FirstKeys(active, SupervisorName);
    forall i | 0 <= i < |ks| ensures ArrayIndex(ks[i]).None? {
      BarOfKey(asignaciones, ks[i]);
    }
    PropertyOrderNoIndex(ks, ArrayIndex);
    ChartNamesOfChart(active, SupervisorOrder(active));
  }

  // ---------------------------------------------------------------------
  // As written: names inherited from Object.prototype

  /** The properties every plain object inherits from `Object.prototype`.
      For such a name `acc[name]` is already truthy, so the reduce creates
      no own entry and its `+= 1` lands on the inherited value. */
  const InheritedNames: set<string> := {
    "constructor", "hasOwnProperty", "isPrototypeOf", "propertyIsEnumerable",
    "toString", "toLocaleString", "valueOf", "__proto__",
    "__defineGetter__", "__defineSetter__", "__lookupGetter__", "__lookupSetter__"
  }

  predicate IsOwnName(name: string) { name !in InheritedNames }

  /** The chart the reduce actually yields: supervisors whose name is an
      inherited property are missing from `Object.values`. */
  function SupervisorChartAsWritten(asignaciones: seq<AsignacionSupervisorVendedor>): seq<SupervisorVendedorCount> {
    var active := Filter(asignaciones, IsActive);
    Chart(active, PropertyOrder(Filter(FirstKeys(active, SupervisorName), IsOwnName), ArrayIndex))
  }

  /** One active assignment under a supervisor named "constructor": the
      chart as written is empty, and its bars add up to 0, not to 1. */
  lemma PrototypeNameDropped()
    ensures var asignaciones := [AsignacionSupervisorVendedor(1, 7, "constructor", 3, "Ana", "2024-01-01", true)];
      SupervisorChartAsWritten(asignaciones) == []
      && TotalVendedores(SupervisorChartAsWritten(asignaciones)) == 0
      && Count(asignaciones, IsActive) == 1
      && TotalVendedores(SupervisorChart(asignaciones)) == 1
  {
    var a := AsignacionSupervisorVendedor(1, 7, "constructor", 3, "Ana", "2024-01-01", true);
    var asignaciones := [a];
    assert asignaciones[1..] == [];
    assert Filter(asignaciones, IsActive) == [a];
    assert asignaciones[..0] == [];
    assert FirstKeys([a], SupervisorName) == ["constructor"];
    assert Filter(["constructor"], IsOwnName) == [];
    SupervisorChartTotal(asignaciones);
  }
}
