/**
 * The calculation side of the web front end (web/src/App.tsx): migration of
 * saved settings from the single-number overhead format to categorised
 * overhead, and the composition that prices the selected catalog piece.
 */
module App {
  import opened Wrappers
  import Utils
  import opened Pottery

  /** Studio-wide settings in the current, categorised-overhead format. */
  datatype StudioSettings = StudioSettings(
    overhead: OverheadSettings,
    piecesPerMonth: real,
    glazeCostPerPiece: real,
    kiln: KilnLaborInput)

  /**
   * A settings record as read back from storage: either format. A current
   * record carries `overhead`; a legacy one carries `monthlyOverhead`, which
   * may itself be missing.
   */
  datatype StoredSettings = StoredSettings(
    overhead: Option<OverheadSettings>,
    monthlyOverhead: Option<real>,
    piecesPerMonth: real,
    glazeCostPerPiece: real,
    kiln: KilnLaborInput)

  /** A current-format settings record as it is written to storage. */
  function Stored(settings: StudioSettings): StoredSettings {
    StoredSettings(Some(settings.overhead), None,
      settings.piecesPerMonth, settings.glazeCostPerPiece, settings.kiln)
  }

  /** `legacy.monthlyOverhead || 0`: a missing legacy overhead counts as $0. */
  function LegacyOverhead(stored: StoredSettings): real {
    if stored.monthlyOverhead.Some? then stored.monthlyOverhead.value else 0.0
  }

  /**
   * `migrateSettings`: a record that already has overhead categories is kept
   * as it is; a legacy record's single overhead figure becomes one fixed cost
   * named "Other", with no variable costs.
   */
  function MigrateSettings(stored: StoredSettings): (settings: StudioSettings)
    ensures stored.overhead.Some? ==> Stored(settings) == stored.(monthlyOverhead := None)
    ensures stored.overhead.None? ==>
      && settings.overhead.fixedCosts == [OverheadItem("1", "Other", LegacyOverhead(stored))]
      && settings.overhead.variableCosts == []
    ensures stored.overhead.None? ==>
      TotalOverhead(settings.overhead) == ClampedAmount(LegacyOverhead(stored))
    ensures settings.piecesPerMonth == stored.piecesPerMonth
    ensures settings.glazeCostPerPiece == stored.glazeCostPerPiece
    ensures settings.kiln == stored.kiln
  {
    if stored.overhead.Some? then
      StudioSettings(stored.overhead.value, stored.piecesPerMonth, stored.glazeCostPerPiece, stored.kiln)
    else
      var other := OverheadItem("1", "Other", LegacyOverhead(stored));
      SumOverheadItemsSingle(other);
      assert [other] + [] == [other];
      StudioSettings(
        OverheadSettings([other], []),
        stored.piecesPerMonth, stored.glazeCostPerPiece, stored.kiln)
  }

  /** Migrating what a migration produced changes nothing. */
  lemma MigrateSettingsIdempotent(stored: StoredSettings)
    ensures MigrateSettings(Stored(MigrateSettings(stored))) == MigrateSettings(stored)
  {
  }

  /** A current record read back from storage comes out of migration unchanged. */
  lemma MigrateSettingsKeepsCurrent(settings: StudioSettings)
    ensures MigrateSettings(Stored(settings)) == settings
  {
  }

  // ---------------------------------------------------------------------------
  // Pricing the selected piece

  /** A bisque piece of the studio's catalog. */
  datatype BisquePiece = BisquePiece(id: string, name: string, wholesaleCost: real)

  /** The characters JavaScript's `String.prototype.trim` removes. */
  predicate IsTrimmedSpace(c: char) {
    c == '\t' || c == '\n' || c == '\U{000B}' || c == '\U{000C}' || c == '\r' || c == ' '
    || c == '\U{00A0}' || c == '\U{1680}' || ('\U{2000}' <= c <= '\U{200A}')
    || c == '\U{2028}' || c == '\U{2029}' || c == '\U{202F}' || c == '\U{205F}'
    || c == '\U{3000}' || c == '\U{FEFF}'
  }

  /** `name.trim()` is the empty string, so falsy. */
  predicate IsBlank(name: string) {
    forall i | 0 <= i < |name| :: IsTrimmedSpace(name[i])
  }

  /** `staffRoles.filter(r => r.name.trim())`: the roles whose names are not blank, in order. */
  function NamedRoles(roles: seq<StaffRole>): (named: seq<StaffRole>)
    ensures forall r | r in named :: r in roles && !IsBlank(r.name)
    ensures forall r | r in roles && !IsBlank(r.name) :: r in named
    ensures |named| <= |roles|
    decreases |roles|
  {
    if roles == [] then []
    else
      var prefix := roles[..|roles| - 1];
      var last := roles[|roles| - 1];
      assert roles == prefix + [last];
      NamedRoles(prefix) + (if IsBlank(last.name) then [] else [last])
  }

  /** Filtering distributes over concatenation, so it keeps the roles' order and repeats. */
  lemma {:induction false} NamedRolesAppend(a: seq<StaffRole>, b: seq<StaffRole>)
    ensures NamedRoles(a + b) == NamedRoles(a) + NamedRoles(b)
    decreases |b|
  {
    if b == [] {
      assert a + b == a;
    } else {
      var b' := b[..|b| - 1];
      assert (a + b)[..|a + b| - 1] == a + b';
      NamedRolesAppend(a, b');
    }
  }

  /** Filtering twice is filtering once. */
  lemma {:induction false} NamedRolesIdempotent(roles: seq<StaffRole>)
    ensures NamedRoles(NamedRoles(roles)) == NamedRoles(roles)
    decreases |roles|
  {
    if roles != [] {
      var prefix := roles[..|roles| - 1];
      var last := roles[|roles| - 1];
      var tail := if IsBlank(last.name) then [] else [last];
      NamedRolesIdempotent(prefix);
      NamedRolesAppend(NamedRoles(prefix), tail);
      if tail != [] {
        assert tail[..0] == [];
      }
    }
  }

  /**
   * The `useMemo` body of the App component: no result while no piece with a
   * name is selected; otherwise the piece COGS from the named staff roles,
   * with the monthly overhead taken as the categorised overhead total.
   */
  method SelectedPieceCOGS(
    selectedPiece: Option<BisquePiece>, staffRoles: seq<StaffRole>, settings: StudioSettings)
    returns (result: Option<COGSResult>)
    ensures result.None? <==> (selectedPiece.None? || IsBlank(selectedPiece.value.name))
    ensures result.Some? ==>
      && result.value.breakdown.bisqueCost == selectedPiece.value.wholesaleCost
      && result.value.breakdown.glazeCost == settings.glazeCostPerPiece
      && result.value.breakdown.laborByRole == LaborByRole(NamedRoles(staffRoles))
      && result.value.breakdown.laborTotal == Utils.RoundCents(LaborSum(NamedRoles(staffRoles)))
      && result.value.breakdown.kilnCost == KilnLaborCost(settings.kiln)
      && result.value.breakdown.overheadCost
         == OverheadCost(OverheadInput(TotalOverhead(settings.overhead), settings.piecesPerMonth))
    ensures result.Some? ==> forall name | name in result.value.breakdown.laborByRole :: !IsBlank(name)
    ensures result.Some? ==>
      var b := result.value.breakdown;
      Utils.NearestCent(result.value.totalCOGS,
        b.bisqueCost + b.glazeCost + b.laborTotal + b.kilnCost + b.overheadCost)
  {
    if selectedPiece.None? || IsBlank(selectedPiece.value.name) {
      return None;
    }
    var validRoles := NamedRoles(staffRoles);
    var monthlyOverhead := TotalOverhead(settings.overhead);
    var cogs := CalculatePieceCOGS(PieceCOGSInput(
      selectedPiece.value.wholesaleCost,
      settings.glazeCostPerPiece,
      validRoles,
      settings.kiln,
      OverheadInput(monthlyOverhead, settings.piecesPerMonth)));
    result := Some(cogs);
  }
}
