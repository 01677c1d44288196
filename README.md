# Pottery studio COGS calculator — verified model of the cost engine

This project models the cost-calculation engine of a COGS (cost of goods sold)
calculator for paint-your-own pottery studios, and proves properties of it:

- `Utils` — `roundCents`, the cent rounding every reported figure goes through
  (`Math.round` on the amount scaled to cents, then scaled back).
- `Pottery` — the per-piece primitives: staff labour shared across customers
  served at once, kiln crew labour shared across the pieces of a firing,
  overhead line items (negative items count as $0), fixed + variable overhead
  totals, overhead spread over the month's pieces; and `calculatePieceCOGS`,
  which loops over the staff roles filling a name-keyed cost record (last write
  wins) while keeping a running total over every role, then adds bisque, glaze,
  labour, kiln and overhead and rounds to the cent.
- `Cogs` — the simple purchase + shipping + labour COGS with its optional
  per-unit figure.
- `App` — `migrateSettings`, which turns a legacy settings record with one
  `monthlyOverhead` number into categorised overhead, and the composition in
  the App component that drops blank-named roles and feeds the overhead total
  into the piece assembler.
- `WorkedExamples` — the figures of the calculation tests (src/utils.test.ts,
  src/pottery.test.ts, src/cogs.test.ts) and of the migration tests, proved
  over exact reals, plus one example of a role named `__proto__`.

Money is `real`. `Math.round(x)` is `Floor(x + 1/2)`: halves go toward
positive infinity. Optional record fields (`quantity?`, `monthlyOverhead?`,
`costPerUnit?`) are `Option`; `Record<string, number>` is `map<string, real>`.
`calculatePieceCOGS` is a method whose loop invariants tie the record and the
running total to the left folds `LaborByRole` and `LaborSum`; the App
composition that calls it (`SelectedPieceCOGS`) and the worked piece examples
are methods too, and everything else is a function.

`Math.round` rounds halves toward positive infinity, not away from zero, so
over exact reals -1.235 becomes -1.23, not -1.24.

## Model

| member | source | states |
|---|---|---|
| Utils.MathRound | src/utils.ts:9 | `Math.round(x)` is the integer n with x - 1/2 < n <= x + 1/2 (halves round up) |
| Utils.RoundCents | src/utils.ts:8-10 | the result is on the cent grid and lies in the half-open half-cent window (x - 0.005, x + 0.005] around the input |
| Utils.NearestCentUnique | src/utils.ts:1-9 | at most one cent value lies in that window, so the window fixes the result |
| Utils.RoundCentsCharacterized | src/utils.ts:8-10 | any cent value in the window around x is `roundCents(x)` |
| Utils.RoundCentsFixesCents | src/utils.ts:9 | whole-cent amounts are left unchanged |
| Utils.RoundCentsIdempotent | src/utils.ts:9 | rounding twice equals rounding once |
| Utils.RoundCentsMonotone | src/utils.ts:9 | x <= y implies roundCents(x) <= roundCents(y) |
| Utils.RoundCentsNonNegative | src/utils.ts:9 | a non-negative amount rounds to a non-negative amount |
| Utils.RoundCentsExamples | src/utils.test.ts:5-23 | 1.234 -> 1.23, 1.235 -> 1.24, 1.999 -> 2, -1.234 -> -1.23; 0, 5 and 100 are fixed |
| Pottery.StaffLaborCost | src/pottery.ts:80-91 | $0 whenever customersSimultaneous <= 0 or the rate or minutes are negative; otherwise the nearest cent of (rate * minutes / 60) / customers; never negative, always whole cents |
| Pottery.KilnLaborCost | src/pottery.ts:117-128 | $0 whenever piecesPerFiring <= 0 or rate, workers or minutes are negative; otherwise the nearest cent of (rate * minutes / 60) * workers / pieces; never negative |
| Pottery.ClampedAmount | src/pottery.ts:152 | `Math.max(0, amount)`: non-negative, at least the amount, and either 0 or the amount |
| Pottery.SumOverheadItems | src/pottery.ts:151-153 | the left-to-right sum of clamped amounts, starting at 0, is never negative |
| Pottery.SumOverheadItemsAppend | src/pottery.ts:151-153 | the sum over a concatenation is the sum of the sums |
| Pottery.SumOverheadItemsSingle | src/pottery.ts:152 | one item sums to its clamped amount |
| Pottery.SumOverheadItemsCoversItem | src/pottery.ts:151-153 | the total is at least every item's amount |
| Pottery.SumOverheadItemsIgnoresNegative | src/pottery.ts:150-153 | removing an item whose amount is <= 0 leaves the total unchanged |
| Pottery.TotalOverhead | src/pottery.ts:166-168 | the fixed plus variable total equals the clamped sum over all items of both categories, and is never negative |
| Pottery.OverheadCost | src/pottery.ts:177-182 | $0 whenever piecesPerMonth <= 0 or the overhead is negative; otherwise the nearest cent of overhead / pieces; never negative |
| Pottery.WriteCost | src/pottery.ts:206 | `record[name] = cost` on a plain object: adds or overwrites the key `name`, leaves every other key alone, and stores nothing for the name `__proto__` |
| Pottery.LaborByRole | src/pottery.ts:197-208 | the record filled by the loop has exactly the role names as keys, except `__proto__` |
| Pottery.LaborSum | src/pottery.ts:198-208 | the running labour total over every role is never negative |
| Pottery.LaborByRoleLastWins | src/pottery.ts:206 | each stored name maps to the cost of the last role bearing that name |
| Pottery.LaborSumAppend | src/pottery.ts:207 | the running total over a concatenation is the sum of the parts |
| Pottery.LaborSumCoversRole | src/pottery.ts:207 | the total splits at any role into the total before it, that role's cost and the total after it: each role's cost is added exactly once, duplicate names included |
| Pottery.CalculatePieceCOGS | src/pottery.ts:193-232 | the loop builds the last-write-wins record (keys: the role names other than `__proto__`) and the unrounded total of every role; laborTotal is that total rounded (never negative); bisque and glaze echo the input; kiln and overhead are the primitives' results; the total is the nearest cent of the five components |
| Cogs.CalculateCOGS | src/cogs.ts:20-40 | the total equals `roundCents` of purchase + shipping + labour; the breakdown echoes the three inputs unrounded; costPerUnit is present exactly when a positive quantity is given, and is then the nearest cent of the rounded total / quantity |
| Cogs.CostPerUnitFromRoundedTotal | src/cogs.ts:35-37 | the per-unit figure is roundCents(roundCents(sum) / quantity): it divides the already rounded total |
| Cogs.QuantityOnlyAffectsCostPerUnit | src/cogs.ts:23-33 | total and breakdown do not depend on the quantity |
| App.MigrateSettings | web/src/App.tsx:27-46 | a record with overhead categories is returned as it is; a legacy record becomes one fixed item {"1", "Other", monthlyOverhead or 0} and no variable items, with total overhead max(0, monthlyOverhead or 0); pieces, glaze and kiln are copied in both cases |
| App.MigrateSettingsIdempotent | web/src/App.tsx:29-45 | migrating a migrated record changes nothing |
| App.MigrateSettingsKeepsCurrent | web/src/App.tsx:29-31 | a current record read back from storage comes out unchanged |
| App.NamedRoles | web/src/App.tsx:109 | the filter keeps exactly the roles whose trimmed name is non-empty |
| App.NamedRolesAppend | web/src/App.tsx:109 | the filter distributes over concatenation, keeping order and repeats |
| App.NamedRolesIdempotent | web/src/App.tsx:109 | filtering twice equals filtering once |
| App.SelectedPieceCOGS | web/src/App.tsx:105-119 | no result exactly when no piece or a blank-named piece is selected; otherwise the piece COGS over the named roles, with monthly overhead = total of the categorised overhead, and a total that is the nearest cent of its five components; no blank name appears in the labour record |
| WorkedExamples.PrimitiveExamples | src/pottery.test.ts:11-179 | 15/20/4 -> 1.25, kiln 17/30/2/20 -> 0.85, 6000/400 -> 15, 5000/300 -> 16.67, and all twelve guard cases of the staff (4), kiln (5) and overhead (3) tests -> 0 |
| WorkedExamples.OverheadExamples | src/pottery.test.ts:182-233 | 2000 + 300 = 2300; a -500 item is ignored; an empty list and two empty categories give 0; 2000 + 300 + 400 = 2700; one empty category gives 2000 |
| WorkedExamples.TwoRolePiece | src/pottery.test.ts:237-272 | the two-role piece costs 22.91 with labour 1.25 and 0.56 |
| WorkedExamples.SingleRolePiece | src/pottery.test.ts:318-343 | one guide at 15/30/3 costs 2.50 and the piece 21.85 |
| WorkedExamples.AllZeroPiece | src/pottery.test.ts:298-316 | all-zero inputs give a total of 0 |
| WorkedExamples.NoStaffPiece | src/pottery.test.ts:274-296 | no roles: empty record, labour 0, total 21.10 |
| WorkedExamples.DuplicateRoleNames | src/pottery.test.ts:345-362 | two "Guide" roles: total labour 35, the record keeps 20 |
| WorkedExamples.ProtoNamedRole | src/pottery.ts:206-207 | a role named `__proto__` adds its 20 to the labour total (35) but no key to the record |
| WorkedExamples.SimpleCOGSExamples | src/cogs.test.ts:5-49 | 140 without quantity; 150 and 15 per unit for ten units; 99.99 + 12.50 + 7.51 -> 120; quantity 0 gives no per-unit figure; 50/10/5 is echoed in the breakdown |
| WorkedExamples.MigrationExample | web/src/App.tsx:35-41 | a legacy 6000 becomes one "Other" item of 6000; a missing or zero figure becomes 0; pieces, glaze and kiln of a legacy 5000 record are kept |
| WorkedExamples.CurrentSettingsExample | web/src/App.tsx:29-31 | a record with Rent and Utilities categories comes back unchanged |

## Left out

- Binary floating point: all arithmetic is over exact reals. The test expecting `roundCents(-1.235) == -1.24` (src/utils.test.ts:18) relies on -1.235 * 100 not being exactly -123.5 in binary; over exact reals it is -1.23, which is what the model gives.
- NaN and infinities: JavaScript treats a NaN `quantity` or `monthlyOverhead` as falsy and lets NaN through the guards; the model has no such values.
- `migrateSettings` returns a current-format object itself, with any extra fields it carries; the model's settings record has only the four settings fields, so a stray `monthlyOverhead` on a current record is not kept.
- The web `StaffRole.id` field: the core ignores it, so roles carry only name, rate, minutes and customers.
- The insertion order of keys in the `laborByRole` object: the record is an unordered map.
- `calculateLaborCost`, labour allocation by percentage, ingredient-based product cost and multi-product COGS are not defined in the source files of this model (src/index.ts imports a `calculateLaborCost` that src/cogs.ts does not export).
- src/index.ts (console output), the React components and the rendering and list-editing parts of web/src/App.tsx, web/src/hooks/useLocalStorage.ts (browser storage and JSON), web/src/utils/formatCurrency.ts (`Intl.NumberFormat`), and the build configuration.
- Selecting the piece by id (`catalog.find`) is UI state: the composition takes the selected piece, if any, as a parameter.
