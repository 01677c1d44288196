/**
 * The worked examples of the test suites (src/pottery.test.ts,
 * src/cogs.test.ts, web/src/migration.test.tsx), proved over exact reals,
 * and one more: a staff role named `__proto__`.
 */
module WorkedExamples {
  import opened Wrappers
  import opened Utils
  import opened Pottery
  import Cogs
  import App

  /** The two default staff roles of a new installation. */
  function GlazingGuide(): StaffRole { StaffRole("Glazing Guide", 15.0, 20.0, 4.0) }
  function Manager(): StaffRole { StaffRole("Manager", 20.0, 5.0, 3.0) }

  /** The default kiln: 2 workers at $17/hr, a 30-minute firing, 20 pieces. */
  function DefaultKiln(): KilnLaborInput { KilnLaborInput(17.0, 30.0, 2.0, 20.0) }

  /** Staff, kiln and overhead primitives on the test suite's figures. */
  lemma PrimitiveExamples()
    ensures StaffLaborCost(StaffLaborInput(15.0, 20.0, 4.0)) == 1.25
    ensures StaffLaborCost(StaffLaborInput(15.0, 20.0, 0.0)) == 0.0
    ensures StaffLaborCost(StaffLaborInput(-15.0, 20.0, 4.0)) == 0.0
    ensures StaffLaborCost(StaffLaborInput(15.0, -20.0, 4.0)) == 0.0
    ensures StaffLaborCost(StaffLaborInput(15.0, 20.0, -1.0)) == 0.0
    ensures KilnLaborCost(DefaultKiln()) == 0.85
    ensures KilnLaborCost(DefaultKiln().(piecesPerFiring := 0.0)) == 0.0
    ensures KilnLaborCost(DefaultKiln().(hourlyRate := -17.0)) == 0.0
    ensures KilnLaborCost(DefaultKiln().(kilnWorkerCount := -2.0)) == 0.0
    ensures KilnLaborCost(DefaultKiln().(minutesPerFiring := -30.0)) == 0.0
    ensures KilnLaborCost(DefaultKiln().(piecesPerFiring := -5.0)) == 0.0
    ensures OverheadCost(OverheadInput(6000.0, 400.0)) == 15.0
    ensures OverheadCost(OverheadInput(5000.0, 300.0)) == 16.67
    ensures OverheadCost(OverheadInput(-6000.0, 400.0)) == 0.0
    ensures OverheadCost(OverheadInput(6000.0, 0.0)) == 0.0
    ensures OverheadCost(OverheadInput(6000.0, -100.0)) == 0.0
  {
    RoundCentsCharacterized(StaffShare(StaffLaborInput(15.0, 20.0, 4.0)), 1.25);
    RoundCentsCharacterized(KilnShare(DefaultKiln()), 0.85);
    RoundCentsCharacterized(6000.0 / 400.0, 15.0);
    RoundCentsCharacterized(5000.0 / 300.0, 16.67);
  }

  /** Overhead sums: $2000 + $300 = $2300, a -$500 item counts as nothing, empty lists sum to $0. */
  lemma OverheadExamples()
    ensures SumOverheadItems([]) == 0.0
    ensures TotalOverhead(OverheadSettings([], [])) == 0.0
    ensures TotalOverhead(OverheadSettings([OverheadItem("1", "Rent", 2000.0)], [])) == 2000.0
    ensures SumOverheadItems([OverheadItem("1", "Rent", 2000.0), OverheadItem("2", "Insurance", 300.0)]) == 2300.0
    ensures SumOverheadItems([OverheadItem("1", "Rent", 2000.0), OverheadItem("2", "Bad", -500.0)]) == 2000.0
    ensures TotalOverhead(OverheadSettings(
      [OverheadItem("1", "Rent", 2000.0), OverheadItem("2", "Insurance", 300.0)],
      [OverheadItem("3", "Utilities", 400.0)])) == 2700.0
  {
    var rent := OverheadItem("1", "Rent", 2000.0);
    assert [rent, OverheadItem("2", "Insurance", 300.0)][..1] == [rent];
    assert [rent, OverheadItem("2", "Bad", -500.0)][..1] == [rent];
    SumOverheadItemsSingle(rent);
    SumOverheadItemsSingle(OverheadItem("3", "Utilities", 400.0));
  }

  /** One guide sharing 30 minutes among 3 customers: 3.00 + 0.50 + 2.50 + 0.85 + 15.00 = $21.85. */
  method SingleRolePiece() returns (result: COGSResult)
    ensures result.totalCOGS == 21.85
    ensures result.breakdown.laborByRole == map["Guide" := 2.5]
  {
    var guide := StaffRole("Guide", 15.0, 30.0, 3.0);
    var kiln := KilnLaborInput(17.0, 30.0, 1.0, 10.0);
    RoundCentsCharacterized(StaffShare(guide.LaborInput()), 2.5);
    RoundCentsCharacterized(KilnShare(kiln), 0.85);
    RoundCentsCharacterized(3000.0 / 200.0, 15.0);
    RoundCentsFixesCents(2.5);
    var roles := [guide];
    assert roles[..0] == [];
    result := CalculatePieceCOGS(PieceCOGSInput(3.0, 0.5, roles, kiln, OverheadInput(3000.0, 200.0)));
    RoundCentsCharacterized(3.0 + 0.5 + 2.5 + 0.85 + 15.0, 21.85);
  }

  /** Nothing to pay for: every component and the total are $0. */
  method AllZeroPiece() returns (result: COGSResult)
    ensures result.totalCOGS == 0.0
  {
    RoundCentsFixesCents(0.0);
    result := CalculatePieceCOGS(PieceCOGSInput(
      0.0, 0.0, [], KilnLaborInput(0.0, 0.0, 0.0, 1.0), OverheadInput(0.0, 1.0)));
  }

  /** The full piece: 4.50 + 0.75 + 1.25 + 0.56 + 0.85 + 15.00 = $22.91. */
  method TwoRolePiece() returns (result: COGSResult)
    ensures result.totalCOGS == 22.91
    ensures result.breakdown.laborByRole == map["Glazing Guide" := 1.25, "Manager" := 0.56]
    ensures result.breakdown.laborTotal == 1.81
    ensures result.breakdown.kilnCost == 0.85 && result.breakdown.overheadCost == 15.0
  {
    PrimitiveExamples();
    RoundCentsCharacterized(StaffShare(Manager().LaborInput()), 0.56);
    var roles := [GlazingGuide(), Manager()];
    assert roles[..1] == [GlazingGuide()] && roles[..1][..0] == [];
    assert LaborSum(roles) == 1.81;
    RoundCentsFixesCents(1.81);
    result := CalculatePieceCOGS(PieceCOGSInput(4.5, 0.75, roles, DefaultKiln(), OverheadInput(6000.0, 400.0)));
    RoundCentsCharacterized(4.5 + 0.75 + 1.81 + 0.85 + 15.0, 22.91);
  }

  /** No staff roles: no labour at all, 4.50 + 0.75 + 0.85 + 15.00 = $21.10. */
  method NoStaffPiece() returns (result: COGSResult)
    ensures result.totalCOGS == 21.10
    ensures result.breakdown.laborByRole == map[] && result.breakdown.laborTotal == 0.0
  {
    PrimitiveExamples();
    RoundCentsFixesCents(0.0);
    result := CalculatePieceCOGS(PieceCOGSInput(4.5, 0.75, [], DefaultKiln(), OverheadInput(6000.0, 400.0)));
    RoundCentsFixesCents(21.10);
  }

  /** Two roles named "Guide": both count in the total, the later one in the map. */
  method DuplicateRoleNames() returns (result: COGSResult)
    ensures result.breakdown.laborTotal == 35.0
    ensures result.breakdown.laborByRole == map["Guide" := 20.0]
  {
    var first, second := StaffRole("Guide", 15.0, 60.0, 1.0), StaffRole("Guide", 20.0, 60.0, 1.0);
    RoundCentsFixesCents(15.0);
    RoundCentsFixesCents(20.0);
    RoundCentsFixesCents(35.0);
    assert RoleCost(first) == 15.0 && RoleCost(second) == 20.0;
    var roles := [first, second];
    assert roles[..1] == [first] && roles[..1][..0] == [];
    assert LaborSum(roles[..1]) == 15.0;
    assert LaborSum(roles) == 35.0;
    result := CalculatePieceCOGS(PieceCOGSInput(
      0.0, 0.0, roles, KilnLaborInput(0.0, 0.0, 0.0, 1.0), OverheadInput(0.0, 1.0)));
  }

  /** A role named "__proto__" is paid for in the total but leaves no key in the record. */
  method ProtoNamedRole() returns (result: COGSResult)
    ensures result.breakdown.laborTotal == 35.0
    ensures result.breakdown.laborByRole == map["Guide" := 15.0]
  {
    var guide, proto := StaffRole("Guide", 15.0, 60.0, 1.0), StaffRole(ProtoKey, 20.0, 60.0, 1.0);
    RoundCentsFixesCents(15.0);
    RoundCentsFixesCents(20.0);
    RoundCentsFixesCents(35.0);
    assert RoleCost(guide) == 15.0 && RoleCost(proto) == 20.0;
    var roles := [guide, proto];
    assert roles[..1] == [guide] && roles[..1][..0] == [];
    assert LaborSum(roles[..1]) == 15.0;
    assert LaborSum(roles) == 35.0;
    assert "Guide" != ProtoKey;
    result := CalculatePieceCOGS(PieceCOGSInput(
      0.0, 0.0, roles, KilnLaborInput(0.0, 0.0, 0.0, 1.0), OverheadInput(0.0, 1.0)));
  }

  /** Simple COGS: $140 without a quantity, $150 and $15 a unit with ten units, $120 from cents. */
  lemma SimpleCOGSExamples()
    ensures Cogs.CalculateCOGS(Cogs.COGSInput(100.0, 15.0, 25.0, None)).totalCOGS == 140.0
    ensures Cogs.CalculateCOGS(Cogs.COGSInput(100.0, 15.0, 25.0, None)).costPerUnit == None
    ensures Cogs.CalculateCOGS(Cogs.COGSInput(100.0, 20.0, 30.0, Some(10.0))).totalCOGS == 150.0
    ensures Cogs.CalculateCOGS(Cogs.COGSInput(100.0, 20.0, 30.0, Some(10.0))).costPerUnit == Some(15.0)
    ensures Cogs.CalculateCOGS(Cogs.COGSInput(99.99, 12.5, 7.51, None)).totalCOGS == 120.0
    ensures Cogs.CalculateCOGS(Cogs.COGSInput(100.0, 20.0, 30.0, Some(0.0))).costPerUnit == None
    ensures Cogs.CalculateCOGS(Cogs.COGSInput(50.0, 10.0, 5.0, None)).breakdown == Cogs.COGSBreakdown(50.0, 10.0, 5.0)
  {
    RoundCentsFixesCents(140.0);
    RoundCentsFixesCents(150.0);
    RoundCentsFixesCents(15.0);
    RoundCentsFixesCents(120.0);
  }

  /** A legacy record with $6000 of overhead becomes one "Other" item of $6000; $0 or none becomes $0. */
  lemma MigrationExample()
    ensures App.MigrateSettings(App.StoredSettings(None, Some(6000.0), 400.0, 0.75, DefaultKiln())).overhead
      == OverheadSettings([OverheadItem("1", "Other", 6000.0)], [])
    ensures App.MigrateSettings(App.StoredSettings(None, None, 400.0, 0.75, DefaultKiln())).overhead.fixedCosts[0].amount == 0.0
    ensures App.MigrateSettings(App.StoredSettings(None, Some(0.0), 400.0, 0.75, DefaultKiln())).overhead.fixedCosts[0].amount == 0.0
    ensures App.MigrateSettings(App.StoredSettings(None, Some(5000.0), 300.0, 1.25, KilnLaborInput(20.0, 45.0, 3.0, 25.0)))
      == App.StudioSettings(OverheadSettings([OverheadItem("1", "Other", 5000.0)], []), 300.0, 1.25, KilnLaborInput(20.0, 45.0, 3.0, 25.0))
  {
  }

  /** A record that already has overhead categories comes back unchanged. */
  lemma CurrentSettingsExample()
    ensures
      var current := App.StudioSettings(
        OverheadSettings([OverheadItem("1", "Rent", 2000.0)], [OverheadItem("2", "Utilities", 400.0)]),
        400.0, 0.75, DefaultKiln());
      App.MigrateSettings(App.Stored(current)) == current
  {
  }
}
