/** Expense allocation and the invoice life cycle (app/models/finance.py).

    Amounts are exact `real`s. The code calls no rounding function, but
    Python's Decimal context rounds each quotient to 28 significant digits;
    that rounding is not modelled, so the sums proved here are exact. Units are the rows that the unit query of
    `calculate_allocations` returns; "now" and "today" are parameters. */
module Finance {
  import opened Common

  // ---------------------------------------------------------------------------
  // Entities
  // ---------------------------------------------------------------------------

  datatype AllocationMethod = Shares | PerUnit | PerPerson | Metered | Custom

  /** The enum's stored value, recorded in every formula snapshot. */
  function MethodValue(m: AllocationMethod): string
  {
    match m
    case Shares => "shares"
    case PerUnit => "per_unit"
    case PerPerson => "per_person"
    case Metered => "metered"
    case Custom => "custom"
  }

  datatype InvoiceStatus = Unpaid | Partial | Paid | Overdue | Cancelled

  /** A unit as the allocation query sees it: its building, its ideal parts
      (`shares`, nullable), its occupant count (nullable) and whether it is active. */
  datatype UnitRow = UnitRow(
    id: int,
    buildingId: int,
    shares: Option<real>,
    occupancyCount: Option<int>,
    isActive: bool)

  datatype ExpenseCategory = ExpenseCategory(
    id: int,
    buildingId: int,
    code: string,
    allocationMethod: AllocationMethod)

  /** The audit record stored with every allocation row. */
  datatype FormulaSnapshot = FormulaSnapshot(methodValue: string, totalAmount: real, calculationDate: int)

  datatype ExpenseAllocation = ExpenseAllocation(
    expenseId: int,
    unitId: int,
    amount: real,
    formulaSnapshot: FormulaSnapshot)

  datatype LateFee = LateFee(amount: real, date: int, reason: string)

  const LateFeeReason: string := "Late payment fee"

  // ---------------------------------------------------------------------------
  // The allocation plan: which unit gets what
  // ---------------------------------------------------------------------------

  /** `unit.shares or Decimal('0')` */
  function SharesOf(u: UnitRow): real
  {
    OrElse(u.shares, 0.0)
  }

  /** `unit.occupancy_count or 0` */
  function OccupantsOf(u: UnitRow): int
  {
    OrElse(u.occupancyCount, 0)
  }

  /** The active units of the building, in query order. */
  function EligibleUnits(units: seq<UnitRow>, buildingId: int): (r: seq<UnitRow>)
    ensures forall u :: u in r <==> u in units && u.buildingId == buildingId && u.isActive
  {
    if units == [] then []
    else
      var rest := EligibleUnits(units[..|units| - 1], buildingId);
      var u := units[|units| - 1];
      assert units == units[..|units| - 1] + [u];
      if u.buildingId == buildingId && u.isActive then rest + [u] else rest
  }

  function TotalShares(us: seq<UnitRow>): real
  {
    if us == [] then 0.0 else TotalShares(us[..|us| - 1]) + SharesOf(us[|us| - 1])
  }

  function TotalOccupants(us: seq<UnitRow>): int
  {
    if us == [] then 0 else TotalOccupants(us[..|us| - 1]) + OccupantsOf(us[|us| - 1])
  }

  function Ids(us: seq<UnitRow>): set<int>
  {
    set u | u in us :: u.id
  }

  /** Unit ids are primary keys. */
  predicate DistinctIds(us: seq<UnitRow>)
  {
    forall i, j :: 0 <= i < j < |us| ==> us[i].id != us[j].id
  }

  /** The guard under which `calculate_allocations` writes any entry at all. */
  predicate Allocates(m: AllocationMethod, us: seq<UnitRow>)
  {
    match m
    case Shares => TotalShares(us) > 0.0
    case PerUnit => |us| > 0
    case PerPerson => TotalOccupants(us) > 0
    case Metered => true
    case Custom => true
  }

  /** The methods whose entries are meant to add up to the expense total. */
  predicate Reconciles(m: AllocationMethod, us: seq<UnitRow>)
  {
    (m.Shares? || m.PerUnit? || m.PerPerson?) && Allocates(m, us)
  }

  /** What one eligible unit is charged, among the eligible units `us`. */
  function UnitAmount(m: AllocationMethod, u: UnitRow, us: seq<UnitRow>, total: real): real
    requires Allocates(m, us)
  {
    match m
    case Shares => if SharesOf(u) != 0.0 then SharesOf(u) / TotalShares(us) * total else 0.0
    case PerUnit => total / (|us| as real)
    case PerPerson => total / (TotalOccupants(us) as real) * (OccupantsOf(u) as real)
    case Metered => 0.0
    case Custom => 0.0
  }

  /** The dict after the loop has visited the units of `prefix`, in order. */
  function Table(m: AllocationMethod, prefix: seq<UnitRow>, us: seq<UnitRow>, total: real): map<int, real>
    requires Allocates(m, us)
  {
    if prefix == [] then map[]
    else
      var u := prefix[|prefix| - 1];
      Table(m, prefix[..|prefix| - 1], us, total)[u.id := UnitAmount(m, u, us, total)]
  }

  /** The unit-to-amount dict that `calculate_allocations` returns. */
  function AllocationPlan(m: AllocationMethod, units: seq<UnitRow>, buildingId: int, total: real): map<int, real>
  {
    var us := EligibleUnits(units, buildingId);
    if Allocates(m, us) then Table(m, us, us, total) else map[]
  }

  // ---------------------------------------------------------------------------
  // Sums
  // ---------------------------------------------------------------------------

  /** Exact division distributes over a sum of numerators. */
  lemma SumOfQuotients(a: real, s: real, t: real, c: real)
    requires t != 0.0
    ensures a / t * c + s / t * c == (a + s) / t * c
  {
    var x, y := a / t, s / t;
    assert x * t == a && y * t == s;
    assert (x + y) * t == a + s;
    assert (a + s) / t == x + y;
  }

  /** The sum of the unit amounts over `prefix`, in order. */
  function SumAmounts(m: AllocationMethod, prefix: seq<UnitRow>, us: seq<UnitRow>, total: real): real
    requires Allocates(m, us)
  {
    if prefix == [] then 0.0
    else SumAmounts(m, prefix[..|prefix| - 1], us, total) + UnitAmount(m, prefix[|prefix| - 1], us, total)
  }

  lemma {:induction false} TableKeys(m: AllocationMethod, prefix: seq<UnitRow>, us: seq<UnitRow>, total: real)
    requires Allocates(m, us)
    ensures Table(m, prefix, us, total).Keys == Ids(prefix)
  {
    if prefix != [] {
      var init := prefix[..|prefix| - 1];
      TableKeys(m, init, us, total);
      assert prefix == init + [prefix[|prefix| - 1]];
      assert Ids(prefix) == Ids(init) + {prefix[|prefix| - 1].id};
    }
  }

  lemma {:induction false} TableAt(m: AllocationMethod, prefix: seq<UnitRow>, us: seq<UnitRow>, total: real, u: UnitRow)
    requires Allocates(m, us)
    requires DistinctIds(prefix)
    requires u in prefix
    ensures u.id in Table(m, prefix, us, total)
    ensures Table(m, prefix, us, total)[u.id] == UnitAmount(m, u, us, total)
  {
    var init := prefix[..|prefix| - 1];
    var last := prefix[|prefix| - 1];
    if u != last {
      assert prefix == init + [last];
      assert u in init;
      var i :| 0 <= i < |init| && init[i] == u;
      assert prefix[i] == u;
      assert u.id != last.id;
      TableAt(m, init, us, total, u);
    }
  }

  lemma {:induction false} TableSum(m: AllocationMethod, prefix: seq<UnitRow>, us: seq<UnitRow>, total: real)
    requires Allocates(m, us)
    requires DistinctIds(prefix)
    ensures MapSum(Table(m, prefix, us, total)) == SumAmounts(m, prefix, us, total)
  {
    if prefix != [] {
      var init := prefix[..|prefix| - 1];
      var last := prefix[|prefix| - 1];
      var t := Table(m, init, us, total);
      TableSum(m, init, us, total);
      TableKeys(m, init, us, total);
      forall v | v in init ensures v.id != last.id {
        var i :| 0 <= i < |init| && init[i] == v;
        assert prefix[i] == v;
      }
      var t' := t[last.id := UnitAmount(m, last, us, total)];
      MapSumRemove(t', last.id);
      assert t' - {last.id} == t;
    }
  }

  lemma {:induction false} SharesSum(prefix: seq<UnitRow>, us: seq<UnitRow>, total: real)
    requires Allocates(Shares, us)
    ensures SumAmounts(Shares, prefix, us, total) == TotalShares(prefix) / TotalShares(us) * total
  {
    if prefix != [] {
      var init, last := prefix[..|prefix| - 1], prefix[|prefix| - 1];
      var a, s, t := TotalShares(init), SharesOf(last), TotalShares(us);
      SharesSum(init, us, total);
      SharesAmount(last, us, total);
      SumOfQuotients(a, s, t, total);
      assert TotalShares(prefix) == a + s;
      assert SumAmounts(Shares, prefix, us, total) == a / t * total + s / t * total;
    }
  }

  lemma {:induction false} PerUnitSum(prefix: seq<UnitRow>, us: seq<UnitRow>, total: real)
    requires Allocates(PerUnit, us)
    ensures SumAmounts(PerUnit, prefix, us, total) == (|prefix| as real) * (total / (|us| as real))
  {
    if prefix != [] {
      PerUnitSum(prefix[..|prefix| - 1], us, total);
    }
  }

  lemma {:induction false} PerPersonSum(prefix: seq<UnitRow>, us: seq<UnitRow>, total: real)
    requires Allocates(PerPerson, us)
    ensures SumAmounts(PerPerson, prefix, us, total)
         == total / (TotalOccupants(us) as real) * (TotalOccupants(prefix) as real)
  {
    if prefix != [] {
      var init := prefix[..|prefix| - 1];
      var k := total / (TotalOccupants(us) as real);
      PerPersonSum(init, us, total);
      calc {
        k * (TotalOccupants(init) as real) + k * (OccupantsOf(prefix[|prefix| - 1]) as real);
        k * ((TotalOccupants(init) + OccupantsOf(prefix[|prefix| - 1])) as real);
      }
    }
  }

  lemma {:induction false} PlaceholderSum(m: AllocationMethod, prefix: seq<UnitRow>, us: seq<UnitRow>, total: real)
    requires m.Metered? || m.Custom?
    ensures SumAmounts(m, prefix, us, total) == 0.0
  {
    if prefix != [] {
      PlaceholderSum(m, prefix[..|prefix| - 1], us, total);
    }
  }

  lemma {:induction false} EligibleDistinct(units: seq<UnitRow>, buildingId: int)
    requires DistinctIds(units)
    ensures DistinctIds(EligibleUnits(units, buildingId))
  {
    if units != [] {
      var init := units[..|units| - 1];
      var u := units[|units| - 1];
      EligibleDistinct(init, buildingId);
      var rest := EligibleUnits(init, buildingId);
      if u.buildingId == buildingId && u.isActive {
        var r := rest + [u];
        forall i, j | 0 <= i < j < |r| ensures r[i].id != r[j].id {
          if j == |r| - 1 {
            assert r[i] in rest;
            assert r[i] in init;
            var k :| 0 <= k < |init| && init[k] == r[i];
            assert units[k] == r[i] && units[|units| - 1] == u;
          }
        }
      }
    }
  }

  // ---------------------------------------------------------------------------
  // Properties of the plan
  // ---------------------------------------------------------------------------

  /** Only active units of the expense's building are ever keys, and every one
      of them is a key exactly when the method's guard holds. */
  lemma AllocationKeys(m: AllocationMethod, units: seq<UnitRow>, buildingId: int, total: real)
    ensures var us := EligibleUnits(units, buildingId);
            AllocationPlan(m, units, buildingId, total).Keys == if Allocates(m, us) then Ids(us) else {}
  {
    var us := EligibleUnits(units, buildingId);
    if Allocates(m, us) {
      TableKeys(m, us, us, total);
    }
  }

  /** With distinct unit ids, an inactive unit or a unit of another building
      never appears in the plan. */
  lemma IneligibleUnitsAbsent(m: AllocationMethod, units: seq<UnitRow>, buildingId: int, total: real, u: UnitRow)
    requires DistinctIds(units)
    requires u in units
    requires !u.isActive || u.buildingId != buildingId
    ensures u.id !in AllocationPlan(m, units, buildingId, total)
  {
    AllocationKeys(m, units, buildingId, total);
    var us := EligibleUnits(units, buildingId);
    var i :| 0 <= i < |units| && units[i] == u;
    forall v | v in us ensures v.id != u.id {
      var j :| 0 <= j < |units| && units[j] == v;
      assert i != j;
    }
  }

  /** SHARES: with a positive share total every active unit is charged
      `shares / total_shares * total` (zero for a unit without shares); with a
      zero share total nothing is charged. */
  lemma SharesAllocation(units: seq<UnitRow>, buildingId: int, total: real, u: UnitRow)
    requires DistinctIds(units)
    requires u in EligibleUnits(units, buildingId)
    ensures u.id in AllocationPlan(Shares, units, buildingId, total)
        <==> TotalShares(EligibleUnits(units, buildingId)) > 0.0
    ensures u.id in AllocationPlan(Shares, units, buildingId, total) ==>
              (AllocationPlan(Shares, units, buildingId, total)[u.id]
               == SharesOf(u) / TotalShares(EligibleUnits(units, buildingId)) * total)
  {
    var us := EligibleUnits(units, buildingId);
    var plan := AllocationPlan(Shares, units, buildingId, total);
    AllocationKeys(Shares, units, buildingId, total);
    if TotalShares(us) > 0.0 {
      EligibleDistinct(units, buildingId);
      TableAt(Shares, us, us, total, u);
      assert plan == Table(Shares, us, us, total);
      SharesAmount(u, us, total);
    } else {
      assert u.id !in plan;
    }
  }

  /** A unit without shares is charged zero, which is also its proportional part. */
  lemma SharesAmount(u: UnitRow, us: seq<UnitRow>, total: real)
    requires TotalShares(us) > 0.0
    ensures UnitAmount(Shares, u, us, total) == SharesOf(u) / TotalShares(us) * total
  {
    var s, t := SharesOf(u), TotalShares(us);
    if s == 0.0 {
      assert s / t == 0.0;
      assert s / t * total == 0.0;
    }
  }

  /** PER_UNIT: every active unit is charged `total / n`. */
  lemma PerUnitAllocation(units: seq<UnitRow>, buildingId: int, total: real, u: UnitRow)
    requires DistinctIds(units)
    requires u in EligibleUnits(units, buildingId)
    ensures u.id in AllocationPlan(PerUnit, units, buildingId, total)
    ensures AllocationPlan(PerUnit, units, buildingId, total)[u.id]
         == total / (|EligibleUnits(units, buildingId)| as real)
  {
    var us := EligibleUnits(units, buildingId);
    EligibleDistinct(units, buildingId);
    TableAt(PerUnit, us, us, total, u);
    assert AllocationPlan(PerUnit, units, buildingId, total) == Table(PerUnit, us, us, total);
  }

  /** PER_PERSON: with occupants, every active unit is charged
      `total / total_occupants * occupancy_count`; with none, nothing is charged. */
  lemma PerPersonAllocation(units: seq<UnitRow>, buildingId: int, total: real, u: UnitRow)
    requires DistinctIds(units)
    requires u in EligibleUnits(units, buildingId)
    ensures u.id in AllocationPlan(PerPerson, units, buildingId, total)
        <==> TotalOccupants(EligibleUnits(units, buildingId)) > 0
    ensures u.id in AllocationPlan(PerPerson, units, buildingId, total) ==>
              (AllocationPlan(PerPerson, units, buildingId, total)[u.id]
               == total / (TotalOccupants(EligibleUnits(units, buildingId)) as real) * (OccupantsOf(u) as real))
  {
    var us := EligibleUnits(units, buildingId);
    var plan := AllocationPlan(PerPerson, units, buildingId, total);
    AllocationKeys(PerPerson, units, buildingId, total);
    if TotalOccupants(us) > 0 {
      assert plan[u.id] == UnitAmount(PerPerson, u, us, total) by {
        EligibleDistinct(units, buildingId);
        TableAt(PerPerson, us, us, total, u);
        assert plan == Table(PerPerson, us, us, total);
      }
      PerPersonAmount(u, us, total);
    } else {
      assert u.id !in plan;
    }
  }

  lemma PerPersonAmount(u: UnitRow, us: seq<UnitRow>, total: real)
    requires TotalOccupants(us) > 0
    ensures UnitAmount(PerPerson, u, us, total) == total / (TotalOccupants(us) as real) * (OccupantsOf(u) as real)
  {
  }

  /** METERED and CUSTOM: every active unit is charged zero. */
  lemma PlaceholderAllocation(m: AllocationMethod, units: seq<UnitRow>, buildingId: int, total: real, u: UnitRow)
    requires m.Metered? || m.Custom?
    requires DistinctIds(units)
    requires u in EligibleUnits(units, buildingId)
    ensures u.id in AllocationPlan(m, units, buildingId, total)
    ensures AllocationPlan(m, units, buildingId, total)[u.id] == 0.0
  {
    var us := EligibleUnits(units, buildingId);
    EligibleDistinct(units, buildingId);
    TableAt(m, us, us, total, u);
    assert AllocationPlan(m, units, buildingId, total) == Table(m, us, us, total);
  }

  /** The entries add up to the expense total for SHARES, PER_UNIT and
      PER_PERSON whenever any entry is written; otherwise (an empty plan, or the
      zero placeholders of METERED and CUSTOM) they add up to zero. */
  lemma PlanTotal(m: AllocationMethod, units: seq<UnitRow>, buildingId: int, total: real)
    requires DistinctIds(units)
    ensures MapSum(AllocationPlan(m, units, buildingId, total))
         == if Reconciles(m, EligibleUnits(units, buildingId)) then total else 0.0
  {
    var us := EligibleUnits(units, buildingId);
    if Allocates(m, us) {
      EligibleDistinct(units, buildingId);
      TableSum(m, us, us, total);
      FullSum(m, us, total);
      assert AllocationPlan(m, units, buildingId, total) == Table(m, us, us, total);
    } else {
      assert AllocationPlan(m, units, buildingId, total) == map[];
    }
  }

  /** The unit amounts over all eligible units add up to the total for the
      proportional methods and to zero for the placeholders. */
  lemma FullSum(m: AllocationMethod, us: seq<UnitRow>, total: real)
    requires Allocates(m, us)
    ensures SumAmounts(m, us, us, total) == if Reconciles(m, us) then total else 0.0
  {
    match m
    case Shares =>
      SharesSum(us, us, total);
      var t := TotalShares(us);
      assert t / t == 1.0;
    case PerUnit =>
      PerUnitSum(us, us, total);
      var n := |us| as real;
      assert n * (total / n) == total;
    case PerPerson =>
      PerPersonSum(us, us, total);
      var o := TotalOccupants(us) as real;
      assert total / o * o == total;
    case Metered =>
      PlaceholderSum(m, us, us, total);
    case Custom =>
      PlaceholderSum(m, us, us, total);
  }

  // ---------------------------------------------------------------------------
  // ExpenseCategory.calculate_allocations
  // ---------------------------------------------------------------------------

  /** Fills the unit-to-amount dict by the category's method; `units` is the
      unit table that the code's query filters to the building's active units. */
  method CalculateAllocations(category: ExpenseCategory, units: seq<UnitRow>, totalAmount: real)
    returns (allocations: map<int, real>)
    ensures allocations == AllocationPlan(category.allocationMethod, units, category.buildingId, totalAmount)
  {
    var eligible := EligibleUnits(units, category.buildingId);
    allocations := map[];
    match category.allocationMethod {
      case Shares =>
        if TotalShares(eligible) > 0.0 {
          allocations := AllocateByShares(eligible, totalAmount);
        }
      case PerUnit =>
        if |eligible| > 0 {
          allocations := AllocatePerUnit(eligible, totalAmount);
        }
      case PerPerson =>
        if TotalOccupants(eligible) > 0 {
          allocations := AllocatePerPerson(eligible, totalAmount);
        }
      case Metered =>
        allocations := AllocateZero(Metered, eligible, totalAmount);
      case Custom =>
        allocations := AllocateZero(Custom, eligible, totalAmount);
    }
  }

  /** The SHARES loop, run once the share total is known to be positive. */
  method AllocateByShares(eligible: seq<UnitRow>, totalAmount: real) returns (allocations: map<int, real>)
    requires TotalShares(eligible) > 0.0
    ensures allocations == Table(Shares, eligible, eligible, totalAmount)
  {
    var totalShares := TotalShares(eligible);
    allocations := map[];
    for i := 0 to |eligible|
      invariant allocations == Table(Shares, eligible[..i], eligible, totalAmount)
    {
      var u := eligible[i];
      assert eligible[..i + 1][..i] == eligible[..i];
      assert Table(Shares, eligible[..i + 1], eligible, totalAmount)
          == allocations[u.id := UnitAmount(Shares, u, eligible, totalAmount)];
      if SharesOf(u) != 0.0 {
        assert UnitAmount(Shares, u, eligible, totalAmount) == SharesOf(u) / totalShares * totalAmount;
        allocations := allocations[u.id := SharesOf(u) / totalShares * totalAmount];
      } else {
        assert UnitAmount(Shares, u, eligible, totalAmount) == 0.0;
        allocations := allocations[u.id := 0.0];
      }
    }
    assert eligible[..|eligible|] == eligible;
  }

  /** The PER_UNIT loop, run when there is at least one unit. */
  method AllocatePerUnit(eligible: seq<UnitRow>, totalAmount: real) returns (allocations: map<int, real>)
    requires |eligible| > 0
    ensures allocations == Table(PerUnit, eligible, eligible, totalAmount)
  {
    var amountPerUnit := totalAmount / (|eligible| as real);
    allocations := map[];
    for i := 0 to |eligible|
      invariant allocations == Table(PerUnit, eligible[..i], eligible, totalAmount)
    {
      assert eligible[..i + 1][..i] == eligible[..i];
      allocations := allocations[eligible[i].id := amountPerUnit];
    }
    assert eligible[..|eligible|] == eligible;
  }

  /** The PER_PERSON loop, run once the occupant total is known to be positive. */
  method AllocatePerPerson(eligible: seq<UnitRow>, totalAmount: real) returns (allocations: map<int, real>)
    requires TotalOccupants(eligible) > 0
    ensures allocations == Table(PerPerson, eligible, eligible, totalAmount)
  {
    var amountPerPerson := totalAmount / (TotalOccupants(eligible) as real);
    allocations := map[];
    for i := 0 to |eligible|
      invariant allocations == Table(PerPerson, eligible[..i], eligible, totalAmount)
    {
      assert eligible[..i + 1][..i] == eligible[..i];
      assert Table(PerPerson, eligible[..i + 1], eligible, totalAmount)
          == allocations[eligible[i].id := UnitAmount(PerPerson, eligible[i], eligible, totalAmount)];
      assert UnitAmount(PerPerson, eligible[i], eligible, totalAmount)
          == amountPerPerson * (OccupantsOf(eligible[i]) as real);
      allocations := allocations[eligible[i].id := amountPerPerson * (OccupantsOf(eligible[i]) as real)];
    }
    assert eligible[..|eligible|] == eligible;
  }

  /** The METERED and CUSTOM placeholder loop: every unit gets zero. */
  method AllocateZero(m: AllocationMethod, eligible: seq<UnitRow>, totalAmount: real) returns (allocations: map<int, real>)
    requires m.Metered? || m.Custom?
    ensures allocations == Table(m, eligible, eligible, totalAmount)
  {
    allocations := map[];
    for i := 0 to |eligible|
      invariant allocations == Table(m, eligible[..i], eligible, totalAmount)
    {
      assert eligible[..i + 1][..i] == eligible[..i];
      allocations := allocations[eligible[i].id := 0.0];
    }
    assert eligible[..|eligible|] == eligible;
  }

  // ---------------------------------------------------------------------------
  // Expense
  // ---------------------------------------------------------------------------

  /** `SUM(amount) ... WHERE expense_id = expenseId`, or zero. */
  function RowsTotal(rows: seq<ExpenseAllocation>, expenseId: int): real
  {
    if rows == [] then 0.0
    else
      var r := rows[|rows| - 1];
      RowsTotal(rows[..|rows| - 1], expenseId) + (if r.expenseId == expenseId then r.amount else 0.0)
  }

  function RowUnitIds(rows: seq<ExpenseAllocation>): set<int>
  {
    set r | r in rows :: r.unitId
  }

  /** The rows written for `plan`: one per planned unit, with the planned
      amount, the expense id and the snapshot. */
  predicate RowsFollowPlan(rows: seq<ExpenseAllocation>, plan: map<int, real>, expenseId: int, snapshot: FormulaSnapshot)
  {
    && (forall i, j :: 0 <= i < j < |rows| ==> rows[i].unitId != rows[j].unitId)
    && (forall r :: r in rows ==>
          r.unitId in plan && r.amount == plan[r.unitId] &&
          r.expenseId == expenseId && r.formulaSnapshot == snapshot)
  }

  class Expense {
    const id: int
    const buildingId: int
    const category: ExpenseCategory
    const period: int
    const amountTotal: real
    var isAllocated: bool
    var allocations: seq<ExpenseAllocation>

    constructor (id: int, buildingId: int, category: ExpenseCategory, period: int, amountTotal: real)
      ensures this.id == id && this.buildingId == buildingId && this.category == category
      ensures this.period == period && this.amountTotal == amountTotal
      ensures !isAllocated && allocations == []
    {
      this.id := id;
      this.buildingId := buildingId;
      this.category := category;
      this.period := period;
      this.amountTotal := amountTotal;
      isAllocated := false;
      allocations := [];
    }

    /** `get_total_allocated` */
    function TotalAllocated(): real
      reads this
    {
      RowsTotal(allocations, id)
    }

    function Snapshot(now: int): FormulaSnapshot
    {
      FormulaSnapshot(MethodValue(category.allocationMethod), amountTotal, now)
    }

    /** The `for unit_id, amount in allocations.items()` loop: one saved row
        per entry of `plan`, in the dict's (unspecified) order. */
    method SaveRows(plan: map<int, real>, snapshot: FormulaSnapshot)
      modifies this`allocations
      ensures |old(allocations)| <= |allocations| && allocations[..|old(allocations)|] == old(allocations)
      ensures RowsFollowPlan(allocations[|old(allocations)|..], plan, id, snapshot)
      ensures RowUnitIds(allocations[|old(allocations)|..]) == plan.Keys
      ensures |allocations| - |old(allocations)| == |plan.Keys|
      ensures TotalAllocated() == old(TotalAllocated()) + MapSum(plan)
    {
      ghost var before := allocations;
      var remaining := plan;
      SaveStart(before, plan, id, snapshot);
      while exists k :: k in remaining
        invariant SaveProgress(before, allocations, remaining, plan, id, snapshot)
        decreases |remaining.Keys|
      {
        var unitId :| unitId in remaining;
        var row := ExpenseAllocation(id, unitId, remaining[unitId], snapshot);
        SaveStep(before, allocations, remaining, plan, row);
        allocations := allocations + [row];
        remaining := remaining - {unitId};
      }
      SaveDone(before, allocations, remaining, plan, id, snapshot);
    }

    /** The dict `calculate_allocations` gives this expense over `units`. */
    function Plan(units: seq<UnitRow>): map<int, real>
    {
      AllocationPlan(category.allocationMethod, units, category.buildingId, amountTotal)
    }

    /** `generate_allocations`: refused (false, nothing written) once allocated;
        otherwise writes one row per planned unit, in any order, and sets
        `isAllocated`. */
    method GenerateAllocations(units: seq<UnitRow>, now: int) returns (ok: bool)
      modifies this
      ensures ok == !old(isAllocated)
      ensures isAllocated
      ensures !ok ==> allocations == old(allocations)
      ensures ok ==> |old(allocations)| <= |allocations| && allocations[..|old(allocations)|] == old(allocations)
      ensures ok ==> RowsFollowPlan(allocations[|old(allocations)|..], Plan(units), id, Snapshot(now))
      ensures ok ==> RowUnitIds(allocations[|old(allocations)|..]) == Plan(units).Keys
      ensures ok ==> |allocations| - |old(allocations)| == |Plan(units).Keys|
      ensures ok ==> TotalAllocated() == old(TotalAllocated()) + MapSum(Plan(units))
    {
      if isAllocated {
        return false;
      }
      var plan := CalculateAllocations(category, units, amountTotal);
      var snapshot := FormulaSnapshot(MethodValue(category.allocationMethod), amountTotal, now);
      SaveRows(plan, snapshot);
      isAllocated := true;
      return true;
    }
  }

  /** The state of the saving loop: `rows` extends `before` by rows that
      follow `plan` for the units already done, `remaining` holds the rest of
      `plan`, and the summed column has grown by the sum of what was done. */
  ghost predicate SaveProgress(before: seq<ExpenseAllocation>, rows: seq<ExpenseAllocation>,
                               remaining: map<int, real>, plan: map<int, real>,
                               expenseId: int, snapshot: FormulaSnapshot)
  {
    RowsSaved(before, rows, remaining, plan, expenseId, snapshot) &&
    RowsTotal(rows, expenseId) + MapSum(remaining) == RowsTotal(before, expenseId) + MapSum(plan)
  }

  ghost predicate RowsSaved(before: seq<ExpenseAllocation>, rows: seq<ExpenseAllocation>,
                            remaining: map<int, real>, plan: map<int, real>,
                            expenseId: int, snapshot: FormulaSnapshot)
  {
    && |before| <= |rows| && rows[..|before|] == before
    && (forall k :: k in remaining ==> k in plan && remaining[k] == plan[k])
    && RowsFollowPlan(rows[|before|..], plan, expenseId, snapshot)
    && RowUnitIds(rows[|before|..]) !! remaining.Keys
    && RowUnitIds(rows[|before|..]) + remaining.Keys == plan.Keys
    && |rows| - |before| + |remaining.Keys| == |plan.Keys|
  }

  /** One turn of the saving loop keeps its state. */
  lemma SaveStep(before: seq<ExpenseAllocation>, rows: seq<ExpenseAllocation>,
                 remaining: map<int, real>, plan: map<int, real>, row: ExpenseAllocation)
    requires SaveProgress(before, rows, remaining, plan, row.expenseId, row.formulaSnapshot)
    requires row.unitId in remaining && row.amount == remaining[row.unitId]
    ensures SaveProgress(before, rows + [row], remaining - {row.unitId}, plan, row.expenseId, row.formulaSnapshot)
  {
    SaveStepRows(before, rows, remaining, plan, row);
    MapSumRemove(remaining, row.unitId);
    RowsTotalAppend(rows, row, row.expenseId);
  }

  lemma SaveStepRows(before: seq<ExpenseAllocation>, rows: seq<ExpenseAllocation>,
                     remaining: map<int, real>, plan: map<int, real>, row: ExpenseAllocation)
    requires RowsSaved(before, rows, remaining, plan, row.expenseId, row.formulaSnapshot)
    requires row.unitId in remaining && row.amount == remaining[row.unitId]
    ensures RowsSaved(before, rows + [row], remaining - {row.unitId}, plan, row.expenseId, row.formulaSnapshot)
  {
    var k, id, snapshot := row.unitId, row.expenseId, row.formulaSnapshot;
    var rows', remaining' := rows + [row], remaining - {k};
    SliceAppend(rows, |before|, row);
    RemoveKey(remaining, k);
    assert RowsFollowPlan(rows'[|before|..], plan, id, snapshot)
        && RowUnitIds(rows'[|before|..]) == RowUnitIds(rows[|before|..]) + {k} by {
      AppendRow(rows[|before|..], row, plan, snapshot);
    }
  }

  /** The saving loop starts from nothing saved and all of `plan` remaining. */
  lemma SaveStart(before: seq<ExpenseAllocation>, plan: map<int, real>, expenseId: int, snapshot: FormulaSnapshot)
    ensures SaveProgress(before, before, plan, plan, expenseId, snapshot)
  {
    assert before[|before|..] == [];
    assert before[..|before|] == before;
  }

  /** When nothing remains, every planned row is saved and the total has grown by the plan's sum. */
  lemma SaveDone(before: seq<ExpenseAllocation>, rows: seq<ExpenseAllocation>, remaining: map<int, real>,
                 plan: map<int, real>, expenseId: int, snapshot: FormulaSnapshot)
    requires SaveProgress(before, rows, remaining, plan, expenseId, snapshot)
    requires !exists k :: k in remaining
    ensures |before| <= |rows| && rows[..|before|] == before
    ensures RowsFollowPlan(rows[|before|..], plan, expenseId, snapshot)
    ensures RowUnitIds(rows[|before|..]) == plan.Keys
    ensures |rows| - |before| == |plan.Keys|
    ensures RowsTotal(rows, expenseId) == RowsTotal(before, expenseId) + MapSum(plan)
  {
    forall k | k in remaining.Keys ensures false { }
    assert remaining.Keys == {};
  }

  lemma SliceAppend<T>(s: seq<T>, n: nat, x: T)
    requires n <= |s|
    ensures (s + [x])[n..] == s[n..] + [x]
    ensures (s + [x])[..n] == s[..n]
  {
  }

  lemma RemoveKey<V>(m: map<int, V>, k: int)
    requires k in m
    ensures (m - {k}).Keys == m.Keys - {k}
    ensures |(m - {k}).Keys| == |m.Keys| - 1
  {
  }

  /** Writing one more row keeps the rows following the plan. */
  lemma AppendRow(created: seq<ExpenseAllocation>, row: ExpenseAllocation, plan: map<int, real>, snapshot: FormulaSnapshot)
    requires RowsFollowPlan(created, plan, row.expenseId, snapshot)
    requires row.unitId in plan && row.amount == plan[row.unitId] && row.formulaSnapshot == snapshot
    requires row.unitId !in RowUnitIds(created)
    ensures RowsFollowPlan(created + [row], plan, row.expenseId, snapshot)
    ensures RowUnitIds(created + [row]) == RowUnitIds(created) + {row.unitId}
  {
    var rows := created + [row];
    forall i, j | 0 <= i < j < |rows| ensures rows[i].unitId != rows[j].unitId {
      if j == |created| {
        assert rows[i] in created;
      }
    }
  }

  /** The summed column grows by the new row's amount when it is for this expense. */
  lemma RowsTotalAppend(rows: seq<ExpenseAllocation>, row: ExpenseAllocation, expenseId: int)
    ensures RowsTotal(rows + [row], expenseId)
         == RowsTotal(rows, expenseId) + (if row.expenseId == expenseId then row.amount else 0.0)
  {
    assert (rows + [row])[..|rows|] == rows;
  }

  // ---------------------------------------------------------------------------
  // Invoice
  // ---------------------------------------------------------------------------

  /** The status `update_status` assigns, given the prior status: the code
      reads `is_overdue`, which itself looks at the prior status. */
  function NextStatus(amountPaid: real, amountDue: real, dueDate: int, today: int, prior: InvoiceStatus): (s: InvoiceStatus)
    ensures s == Paid <==> amountPaid >= amountDue
    ensures s == Partial <==> amountPaid < amountDue && amountPaid > 0.0
    ensures s == Overdue <==>
              amountPaid < amountDue && amountPaid <= 0.0 &&
              dueDate < today && prior != Paid && prior != Cancelled
    ensures s == Unpaid <==>
              amountPaid < amountDue && amountPaid <= 0.0 &&
              (dueDate >= today || prior == Paid || prior == Cancelled)
    ensures s != Cancelled
  {
    if amountPaid >= amountDue then Paid
    else if amountPaid > 0.0 then Partial
    else if dueDate < today && prior != Paid && prior != Cancelled then Overdue
    else Unpaid
  }

  /** A CANCELLED invoice is not protected: recomputing its status replaces it. */
  lemma CancelledIsOverwritten(amountPaid: real, amountDue: real, dueDate: int, today: int)
    ensures NextStatus(amountPaid, amountDue, dueDate, today, Cancelled) != Cancelled
    ensures amountPaid < amountDue && amountPaid <= 0.0 ==>
              NextStatus(amountPaid, amountDue, dueDate, today, Cancelled) == Unpaid
  {
  }

  /** The status depends on the prior status only through the overdue test:
      any status other than PAID and CANCELLED leads to the same result. */
  lemma PriorStatusIrrelevant(amountPaid: real, amountDue: real, dueDate: int, today: int, p: InvoiceStatus, q: InvoiceStatus)
    requires p != Paid && p != Cancelled && q != Paid && q != Cancelled
    ensures NextStatus(amountPaid, amountDue, dueDate, today, p) == NextStatus(amountPaid, amountDue, dueDate, today, q)
  {
  }

  class Invoice {
    const id: int
    const unitId: int
    const period: int
    const dueDate: int
    var amountDue: real
    var amountPaid: real
    var status: InvoiceStatus
    /** `details['late_fees']`; a missing list reads as empty. */
    var lateFees: seq<LateFee>

    constructor (id: int, unitId: int, period: int, amountDue: real, dueDate: int)
      ensures this.id == id && this.unitId == unitId && this.period == period
      ensures this.amountDue == amountDue && this.dueDate == dueDate
      ensures amountPaid == 0.0 && status == Unpaid && lateFees == []
    {
      this.id := id;
      this.unitId := unitId;
      this.period := period;
      this.amountDue := amountDue;
      this.dueDate := dueDate;
      amountPaid := 0.0;
      status := Unpaid;
      lateFees := [];
    }

    /** `balance_due`: what is still owed; negative after an overpayment. */
    function BalanceDue(): (b: real)
      reads this
      ensures b > 0.0 <==> amountPaid < amountDue
      ensures b + amountPaid == amountDue
    {
      amountDue - amountPaid
    }

    /** `is_overdue` */
    function IsOverdue(today: int): (r: bool)
      reads this
      ensures r ==> status != Paid && status != Cancelled
      ensures r ==> dueDate < today
      ensures dueDate < today && status != Paid && status != Cancelled ==> r
    {
      dueDate < today && status != Paid && status != Cancelled
    }

    /** `update_status` */
    method UpdateStatus(today: int)
      modifies this`status
      ensures status == NextStatus(amountPaid, amountDue, dueDate, today, old(status))
      ensures status == Paid <==> BalanceDue() <= 0.0
    {
      if amountPaid >= amountDue {
        status := Paid;
      } else if amountPaid > 0.0 {
        status := Partial;
      } else if IsOverdue(today) {
        status := Overdue;
      } else {
        status := Unpaid;
      }
    }

    /** `add_late_fee`: raises the amount due and logs the fee; the status is
        left as it was (the code does not recompute it). */
    method AddLateFee(feeAmount: real, now: int)
      modifies this`amountDue, this`lateFees
      ensures amountDue == old(amountDue) + feeAmount
      ensures lateFees == old(lateFees) + [LateFee(feeAmount, now, LateFeeReason)]
      ensures BalanceDue() == old(BalanceDue()) + feeAmount
    {
      amountDue := amountDue + feeAmount;
      lateFees := lateFees + [LateFee(feeAmount, now, LateFeeReason)];
    }
  }

  // ---------------------------------------------------------------------------
  // Payment
  // ---------------------------------------------------------------------------

  class Payment {
    const id: int
    const unitId: int
    const amount: real
    const isConfirmed: bool
    const invoice: Invoice?

    constructor (id: int, unitId: int, amount: real, isConfirmed: bool, invoice: Invoice?)
      ensures this.id == id && this.unitId == unitId && this.amount == amount
      ensures this.isConfirmed == isConfirmed && this.invoice == invoice
    {
      this.id := id;
      this.unitId := unitId;
      this.amount := amount;
      this.isConfirmed := isConfirmed;
      this.invoice := invoice;
    }

    /** `apply_to_invoice`: a confirmed payment with an invoice adds its amount
        to what was paid and recomputes the status. Nothing records that the
        payment was applied, so a second call adds the amount again. */
    method ApplyToInvoice(today: int) returns (applied: bool)
      modifies invoice
      ensures applied == (invoice != null && isConfirmed)
      ensures applied ==>
        && invoice.amountPaid == old(invoice.amountPaid) + amount
        && invoice.status == NextStatus(invoice.amountPaid, invoice.amountDue, invoice.dueDate, today, old(invoice.status))
        && invoice.amountDue == old(invoice.amountDue)
        && invoice.lateFees == old(invoice.lateFees)
      ensures !applied && invoice != null ==> unchanged(invoice)
    {
      if invoice != null && isConfirmed {
        invoice.amountPaid := invoice.amountPaid + amount;
        invoice.UpdateStatus(today);
        return true;
      }
      return false;
    }
  }

  /** There is no replay guard: applying the same confirmed payment twice
      counts its amount twice. */
  method ApplyTwice(payment: Payment, today: int)
    requires payment.invoice != null && payment.isConfirmed
    modifies payment.invoice
    ensures payment.invoice.amountPaid == old(payment.invoice.amountPaid) + 2.0 * payment.amount
  {
    var first := payment.ApplyToInvoice(today);
    var second := payment.ApplyToInvoice(today);
  }
}
