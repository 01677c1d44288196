/**
 * Per-piece cost of goods sold for a paint-your-own pottery studio
 * (src/pottery.ts): the cost primitives, overhead totals and the assembler
 * that adds bisque, glaze, staff labour, kiln labour and overhead.
 */
module Pottery {
  import opened Utils

  /** The three figures that price one staff role's attention per piece. */
  datatype StaffLaborInput = StaffLaborInput(
    hourlyRate: real,
    minutesPerCustomer: real,
    customersSimultaneous: real)

  /** A named staff position. */
  datatype StaffRole = StaffRole(
    name: string,
    hourlyRate: real,
    minutesPerCustomer: real,
    customersSimultaneous: real)
  {
    /** The labour input the assembler builds from a role. */
    function LaborInput(): StaffLaborInput {
      StaffLaborInput(hourlyRate, minutesPerCustomer, customersSimultaneous)
    }
  }

  /** One kiln firing's crew and capacity. */
  datatype KilnLaborInput = KilnLaborInput(
    hourlyRate: real,
    minutesPerFiring: real,
    kilnWorkerCount: real,
    piecesPerFiring: real)

  /** Monthly overhead and the monthly production it is spread over. */
  datatype OverheadInput = OverheadInput(monthlyOverhead: real, piecesPerMonth: real)

  /** One monthly overhead line item ("Rent", "Insurance", ...). */
  datatype OverheadItem = OverheadItem(id: string, name: string, amount: real)

  /** Overhead items split into fixed and variable categories. */
  datatype OverheadSettings = OverheadSettings(
    fixedCosts: seq<OverheadItem>,
    variableCosts: seq<OverheadItem>)

  /** Everything needed to price one piece. */
  datatype PieceCOGSInput = PieceCOGSInput(
    bisqueCost: real,
    glazeCostPerPiece: real,
    staffRoles: seq<StaffRole>,
    kiln: KilnLaborInput,
    overhead: OverheadInput)

  /** Where every dollar of a piece's cost comes from. */
  datatype COGSBreakdown = COGSBreakdown(
    bisqueCost: real,
    glazeCost: real,
    laborByRole: map<string, real>,
    laborTotal: real,
    kilnCost: real,
    overheadCost: real)

  /** The total cost of one piece with its breakdown. */
  datatype COGSResult = COGSResult(totalCOGS: real, breakdown: COGSBreakdown)

  // ---------------------------------------------------------------------------
  // Staff labour

  /** Inputs that `calculateStaffLaborCost` prices at $0 instead of dividing. */
  predicate StaffGuarded(input: StaffLaborInput) {
    input.customersSimultaneous <= 0.0 || input.hourlyRate < 0.0 || input.minutesPerCustomer < 0.0
  }

  /** The unrounded share of one role's time that falls on one customer's piece. */
  function StaffShare(input: StaffLaborInput): real
    requires !StaffGuarded(input)
  {
    (input.hourlyRate * input.minutesPerCustomer / 60.0) / input.customersSimultaneous
  }

  /** `calculateStaffLaborCost`. */
  function StaffLaborCost(input: StaffLaborInput): (cost: real)
    ensures StaffGuarded(input) ==> cost == 0.0
    ensures !StaffGuarded(input) ==> NearestCent(cost, StaffShare(input))
    ensures cost >= 0.0 && IsCent(cost)
  {
    if StaffGuarded(input) then 0.0
    else
      var cost := StaffShare(input);
      ProductQuotientNonNegative(input.hourlyRate, input.minutesPerCustomer, 1.0, input.customersSimultaneous);
      RoundCentsNonNegative(cost);
      RoundCents(cost)
  }

  /** (a * b / 60) * c / d is non-negative for non-negative factors and positive d. */
  lemma ProductQuotientNonNegative(a: real, b: real, c: real, d: real)
    requires a >= 0.0 && b >= 0.0 && c >= 0.0 && d > 0.0
    ensures (a * b / 60.0) * c / d >= 0.0
    ensures (a * b / 60.0) / d >= 0.0
  {
    var ab := a * b;
    assert ab >= 0.0;
    assert ab / 60.0 * c >= 0.0;
  }

  // ---------------------------------------------------------------------------
  // Kiln labour

  /** Inputs that `calculateKilnLaborCost` prices at $0. */
  predicate KilnGuarded(input: KilnLaborInput) {
    input.piecesPerFiring <= 0.0 || input.hourlyRate < 0.0
    || input.kilnWorkerCount < 0.0 || input.minutesPerFiring < 0.0
  }

  /**
   * The unrounded share of one firing's crew labour that falls on one piece:
   * the firing's total labour divided by the pieces it holds.
   */
  function KilnShare(input: KilnLaborInput): real
    requires !KilnGuarded(input)
  {
    (input.hourlyRate * input.minutesPerFiring / 60.0) * input.kilnWorkerCount / input.piecesPerFiring
  }

  /** `calculateKilnLaborCost`. */
  function KilnLaborCost(input: KilnLaborInput): (cost: real)
    ensures KilnGuarded(input) ==> cost == 0.0
    ensures !KilnGuarded(input) ==> NearestCent(cost, KilnShare(input))
    ensures cost >= 0.0 && IsCent(cost)
  {
    if KilnGuarded(input) then 0.0
    else
      var costPerPiece := KilnShare(input);
      ProductQuotientNonNegative(input.hourlyRate, input.minutesPerFiring, input.kilnWorkerCount, input.piecesPerFiring);
      RoundCentsNonNegative(costPerPiece);
      RoundCents(costPerPiece)
  }

  // ---------------------------------------------------------------------------
  // Overhead

  /** `Math.max(0, amount)`: a negative line item counts as $0. */
  function ClampedAmount(amount: real): (c: real)
    ensures c >= 0.0 && c >= amount
    ensures c == 0.0 || c == amount
  {
    if 0.0 < amount then amount else 0.0
  }

  /**
   * `sumOverheadItems`: the `reduce` from the left, starting at 0, adding the
   * clamped amount of each item in turn.
   */
  function SumOverheadItems(items: seq<OverheadItem>): (total: real)
    ensures total >= 0.0
    decreases |items|
  {
    if items == [] then 0.0
    else SumOverheadItems(items[..|items| - 1]) + ClampedAmount(items[|items| - 1].amount)
  }

  /** The sum of a concatenation is the sum of the parts. */
  lemma {:induction false} SumOverheadItemsAppend(a: seq<OverheadItem>, b: seq<OverheadItem>)
    ensures SumOverheadItems(a + b) == SumOverheadItems(a) + SumOverheadItems(b)
    decreases |b|
  {
    if b == [] {
      assert a + b == a;
    } else {
      var b' := b[..|b| - 1];
      assert (a + b)[..|a + b| - 1] == a + b';
      SumOverheadItemsAppend(a, b');
    }
  }

  /** A list of one item sums to that item's clamped amount. */
  lemma SumOverheadItemsSingle(item: OverheadItem)
    ensures SumOverheadItems([item]) == ClampedAmount(item.amount)
  {
    assert [item][..0] == [];
  }

  /** Every non-negative item is covered by the total. */
  lemma SumOverheadItemsCoversItem(items: seq<OverheadItem>, i: int)
    requires 0 <= i < |items|
    ensures SumOverheadItems(items) >= items[i].amount
  {
    assert items == items[..i] + [items[i]] + items[i + 1..];
    SumOverheadItemsAppend(items[..i] + [items[i]], items[i + 1..]);
    SumOverheadItemsAppend(items[..i], [items[i]]);
    SumOverheadItemsSingle(items[i]);
  }

  /** Removing a negative (or zero) item leaves the total unchanged. */
  lemma SumOverheadItemsIgnoresNegative(items: seq<OverheadItem>, i: int)
    requires 0 <= i < |items| && items[i].amount <= 0.0
    ensures SumOverheadItems(items) == SumOverheadItems(items[..i] + items[i + 1..])
  {
    assert items == items[..i] + [items[i]] + items[i + 1..];
    SumOverheadItemsAppend(items[..i] + [items[i]], items[i + 1..]);
    SumOverheadItemsAppend(items[..i], [items[i]]);
    SumOverheadItemsSingle(items[i]);
    SumOverheadItemsAppend(items[..i], items[i + 1..]);
  }

  /**
   * `calculateTotalOverhead`: the clamped sum of every item, fixed and
   * variable alike.
   */
  function TotalOverhead(overhead: OverheadSettings): (total: real)
    ensures total == SumOverheadItems(overhead.fixedCosts + overhead.variableCosts)
    ensures total >= 0.0
  {
    SumOverheadItemsAppend(overhead.fixedCosts, overhead.variableCosts);
    SumOverheadItems(overhead.fixedCosts) + SumOverheadItems(overhead.variableCosts)
  }

  /** Inputs that `calculateOverheadCost` prices at $0. */
  predicate OverheadGuarded(input: OverheadInput) {
    input.piecesPerMonth <= 0.0 || input.monthlyOverhead < 0.0
  }

  /** `calculateOverheadCost`: monthly overhead spread evenly over the month's pieces. */
  function OverheadCost(input: OverheadInput): (cost: real)
    ensures OverheadGuarded(input) ==> cost == 0.0
    ensures !OverheadGuarded(input) ==> NearestCent(cost, input.monthlyOverhead / input.piecesPerMonth)
    ensures cost >= 0.0 && IsCent(cost)
  {
    if OverheadGuarded(input) then 0.0
    else
      var costPerPiece := input.monthlyOverhead / input.piecesPerMonth;
      RoundCentsNonNegative(costPerPiece);
      RoundCents(costPerPiece)
  }

  // ---------------------------------------------------------------------------
  // Piece COGS

  /** The staff cost of one role, as the assembler computes it. */
  function RoleCost(role: StaffRole): real {
    StaffLaborCost(role.LaborInput())
  }

  /** The names of the given roles. */
  function RoleNames(roles: seq<StaffRole>): set<string> {
    set i | 0 <= i < |roles| :: roles[i].name
  }

  /**
   * The one name a plain JavaScript object `{}` does not store as a key:
   * assigning a number to `record["__proto__"]` runs the inherited prototype
   * setter, which ignores anything that is not an object.
   */
  const ProtoKey: string := "__proto__"

  /** `record[name] = cost` on a plain JavaScript object. */
  function WriteCost(record: map<string, real>, name: string, cost: real): (written: map<string, real>)
    ensures name != ProtoKey ==> written.Keys == record.Keys + {name} && written[name] == cost
    ensures name == ProtoKey ==> written == record
    ensures forall other | other in record && other != name :: other in written && written[other] == record[other]
  {
    if name == ProtoKey then record else record[name := cost]
  }

  /**
   * The `laborByRole` record after writing each role's cost under its name in
   * order: a later role with the same name overwrites an earlier one, and a
   * role named `__proto__` leaves no key.
   */
  function LaborByRole(roles: seq<StaffRole>): (byRole: map<string, real>)
    ensures byRole.Keys == RoleNames(roles) - {ProtoKey}
    decreases |roles|
  {
    if roles == [] then map[]
    else
      var prefix := roles[..|roles| - 1];
      var last := roles[|roles| - 1];
      assert RoleNames(roles) == RoleNames(prefix) + {last.name} by {
        assert forall i | 0 <= i < |prefix| :: prefix[i] == roles[i];
      }
      WriteCost(LaborByRole(prefix), last.name, RoleCost(last))
  }

  /** The running `laborTotal` before rounding: every role counts, duplicate names included. */
  function LaborSum(roles: seq<StaffRole>): (total: real)
    ensures total >= 0.0
    decreases |roles|
  {
    if roles == [] then 0.0
    else LaborSum(roles[..|roles| - 1]) + RoleCost(roles[|roles| - 1])
  }

  /** Each name stored in `laborByRole` holds the cost of the last role bearing that name. */
  lemma {:induction false} LaborByRoleLastWins(roles: seq<StaffRole>, i: int)
    requires 0 <= i < |roles| && roles[i].name != ProtoKey
    requires forall j | i < j < |roles| :: roles[j].name != roles[i].name
    ensures roles[i].name in LaborByRole(roles)
    ensures LaborByRole(roles)[roles[i].name] == RoleCost(roles[i])
    decreases |roles|
  {
    if i < |roles| - 1 {
      var prefix := roles[..|roles| - 1];
      assert forall j | i < j < |prefix| :: prefix[j] == roles[j];
      LaborByRoleLastWins(prefix, i);
    }
  }

  /** The labour sum over a concatenation is the sum of the parts. */
  lemma {:induction false} LaborSumAppend(a: seq<StaffRole>, b: seq<StaffRole>)
    ensures LaborSum(a + b) == LaborSum(a) + LaborSum(b)
    decreases |b|
  {
    if b == [] {
      assert a + b == a;
    } else {
      var b' := b[..|b| - 1];
      assert (a + b)[..|a + b| - 1] == a + b';
      LaborSumAppend(a, b');
    }
  }

  /** Every role's cost is added into the labour sum exactly once, whatever its name. */
  lemma LaborSumCoversRole(roles: seq<StaffRole>, i: int)
    requires 0 <= i < |roles|
    ensures LaborSum(roles) == LaborSum(roles[..i]) + RoleCost(roles[i]) + LaborSum(roles[i + 1..])
  {
    assert roles == roles[..i] + [roles[i]] + roles[i + 1..];
    LaborSumAppend(roles[..i] + [roles[i]], roles[i + 1..]);
    LaborSumAppend(roles[..i], [roles[i]]);
    assert [roles[i]][..0] == [];
  }

  /**
   * `calculatePieceCOGS`: walks the staff roles once, writing each role's cost
   * under its name and adding it to a running total; rounds the total, prices
   * kiln labour and overhead, and rounds the sum of all five components.
   */
  method CalculatePieceCOGS(input: PieceCOGSInput) returns (result: COGSResult)
    ensures result.breakdown.laborByRole == LaborByRole(input.staffRoles)
    ensures result.breakdown.laborByRole.Keys == RoleNames(input.staffRoles) - {ProtoKey}
    ensures result.breakdown.laborTotal == RoundCents(LaborSum(input.staffRoles))
    ensures result.breakdown.laborTotal >= 0.0
    ensures result.breakdown.bisqueCost == input.bisqueCost
    ensures result.breakdown.glazeCost == input.glazeCostPerPiece
    ensures result.breakdown.kilnCost == KilnLaborCost(input.kiln)
    ensures result.breakdown.overheadCost == OverheadCost(input.overhead)
    ensures NearestCent(result.totalCOGS,
      input.bisqueCost + input.glazeCostPerPiece + result.breakdown.laborTotal
      + result.breakdown.kilnCost + result.breakdown.overheadCost)
  {
    var roles := input.staffRoles;
    var laborByRole: map<string, real> := map[];
    var laborTotal := 0.0;
    var i := 0;
    while i < |roles|
      invariant 0 <= i <= |roles|
      invariant laborByRole == LaborByRole(roles[..i])
      invariant laborTotal == LaborSum(roles[..i])
    {
      var role := roles[i];
      var cost := StaffLaborCost(role.LaborInput());
      assert roles[..i + 1][..i] == roles[..i];
      laborByRole := WriteCost(laborByRole, role.name, cost);
      laborTotal := laborTotal + cost;
      i := i + 1;
    }
    assert roles[..i] == roles;
    RoundCentsNonNegative(laborTotal);
    laborTotal := RoundCents(laborTotal);

    var kilnCost := KilnLaborCost(input.kiln);
    var overheadCost := OverheadCost(input.overhead);
    var totalCOGS := RoundCents(
      input.bisqueCost + input.glazeCostPerPiece + laborTotal + kilnCost + overheadCost);

    result := COGSResult(totalCOGS, COGSBreakdown(
      input.bisqueCost, input.glazeCostPerPiece, laborByRole, laborTotal, kilnCost, overheadCost));
  }
}
