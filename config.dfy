/** The application's fixed configuration: the emission factor registry and
    the mapping from the eleven form answers to the calculator's inputs. */
module Config {
  import opened Emissions

  /** The emission factor registry (ADEME Base Carbone values). */
  const Factors: map<string, Factor> := map[
    "natural_gas" := Factor("Natural Gas", 0.244, "kgCO2e/kWh", "ADEME", "GAS-NAT"),
    "heating_oil" := Factor("Heating Oil", 3.2, "kgCO2e/L", "ADEME", "OIL-HEAT"),
    "propane" := Factor("Propane", 3.1, "kgCO2e/kg", "ADEME", "LPG-PROP"),
    "diesel" := Factor("Fleet Diesel", 3.16, "kgCO2e/L", "ADEME", "FUEL-DSL"),
    "petrol" := Factor("Fleet Petrol", 2.8, "kgCO2e/L", "ADEME", "FUEL-PET"),
    "ref_R410A" := Factor("Refill R410A", 2088.0, "kgCO2e/kg", "ADEME", "REF-R410A"),
    "ref_R32" := Factor("Refill R32", 675.0, "kgCO2e/kg", "ADEME", "REF-R32"),
    "ref_R134a" := Factor("Refill R134a", 1430.0, "kgCO2e/kg", "ADEME", "REF-R134a"),
    "electricity_fr" := Factor("Electricity (FR Mix)", 0.052, "kgCO2e/kWh", "ADEME", "ELEC-FR"),
    "district_heat" := Factor("District Heating", 0.170, "kgCO2e/kWh", "ADEME", "HEAT-NET"),
    "grey_fleet_avg" := Factor("Grey Fleet (Avg Car)", 0.218, "kgCO2e/km", "ADEME", "TRAVEL-CAR-AVG")
  ]

  /** The eleven quantities the activity-data form collects. */
  datatype Answers = Answers(
    naturalGas: real,    // kWh
    heatingOil: real,    // litres
    propane: real,       // kg
    diesel: real,        // litres
    petrol: real,        // litres
    r410a: real,         // kg
    r32: real,           // kg
    r134a: real,         // kg
    electricity: real,   // kWh
    districtHeat: real,  // kWh
    greyFleetKm: real)   // km

  /** The categories of the form: a scope label, the separator, a heading. */
  const Stationary: string := Scope1 + Sep + "Stationary"
  const Mobile: string := Scope1 + Sep + "Mobile"
  const Fugitive: string := Scope1 + Sep + "Fugitive"
  const Energy: string := Scope2 + Sep + "Energy"
  const BusinessTravel: string := Scope3 + Sep + "Business Travel"

  /** The calculator input built from the form answers, in the form's
      order: stationary, mobile and fugitive sources (scope 1), energy
      (scope 2), then business travel (scope 3). */
  function AppInputs(a: Answers): (inputs: seq<Entry>)
    ensures |inputs| == 11
    ensures forall i :: 0 <= i < |inputs| ==> inputs[i].0 in Factors
  {
    StationaryInputs(a) + MobileInputs(a) + FugitiveInputs(a) + EnergyInputs(a) + TravelInputs(a)
  }

  function StationaryInputs(a: Answers): seq<Entry> {
    [ ("natural_gas", ActivityInput("Natural Gas", a.naturalGas, "kWh", Stationary)),
      ("heating_oil", ActivityInput("Heating Oil", a.heatingOil, "Liters", Stationary)),
      ("propane", ActivityInput("Propane", a.propane, "kg", Stationary)) ]
  }

  function MobileInputs(a: Answers): seq<Entry> {
    [ ("diesel", ActivityInput("Fleet Diesel", a.diesel, "Liters", Mobile)),
      ("petrol", ActivityInput("Fleet Petrol", a.petrol, "Liters", Mobile)) ]
  }

  function FugitiveInputs(a: Answers): seq<Entry> {
    [ ("ref_R410A", ActivityInput("AC Refill R410A", a.r410a, "kg", Fugitive)),
      ("ref_R32", ActivityInput("AC Refill R32", a.r32, "kg", Fugitive)),
      ("ref_R134a", ActivityInput("AC Refill R134a", a.r134a, "kg", Fugitive)) ]
  }

  function EnergyInputs(a: Answers): seq<Entry> {
    [ ("electricity_fr", ActivityInput("Electricity", a.electricity, "kWh", Energy)),
      ("district_heat", ActivityInput("District Heating", a.districtHeat, "kWh", Energy)) ]
  }

  function TravelInputs(a: Answers): seq<Entry> {
    [ ("grey_fleet_avg", ActivityInput("Grey Fleet Travel", a.greyFleetKm, "km", BusinessTravel)) ]
  }

  /** The quantity as the calculator counts it: zero unless positive. */
  function Reported(q: real): real {
    if q > 0.0 then q else 0.0
  }

  /** Every factor of the registry is non-negative. */
  lemma FactorsNonNegative()
    ensures forall k :: k in Factors ==> Factors[k].value >= 0.0
  {
  }

  lemma FactorValues()
    ensures "natural_gas" in Factors && Factors["natural_gas"].value == 0.244
    ensures "heating_oil" in Factors && Factors["heating_oil"].value == 3.2
    ensures "propane" in Factors && Factors["propane"].value == 3.1
    ensures "diesel" in Factors && Factors["diesel"].value == 3.16
    ensures "petrol" in Factors && Factors["petrol"].value == 2.8
    ensures "ref_R410A" in Factors && Factors["ref_R410A"].value == 2088.0
    ensures "ref_R32" in Factors && Factors["ref_R32"].value == 675.0
    ensures "ref_R134a" in Factors && Factors["ref_R134a"].value == 1430.0
    ensures "electricity_fr" in Factors && Factors["electricity_fr"].value == 0.052
    ensures "district_heat" in Factors && Factors["district_heat"].value == 0.170
    ensures "grey_fleet_avg" in Factors && Factors["grey_fleet_avg"].value == 0.218
  {
  }

  /** Each category of the form falls in the scope its text starts with. */
  lemma CategoryScopes()
    ensures ScopeOf(Stationary) == Scope1 && ScopeOf(Mobile) == Scope1 && ScopeOf(Fugitive) == Scope1
    ensures ScopeOf(Energy) == Scope2
    ensures ScopeOf(BusinessTravel) == Scope3
  {
    ScopeOfJoined(Scope1, "Stationary");
    ScopeOfJoined(Scope1, "Mobile");
    ScopeOfJoined(Scope1, "Fugitive");
    ScopeOfJoined(Scope2, "Energy");
    ScopeOfJoined(Scope3, "Business Travel");
  }

  /** What one application entry adds to the totals: its reported quantity
      times its factor, in its category's scope. */
  lemma AppEntryTotals(e: Entry, scope: string, v: real)
    requires e.0 in Factors && Factors[e.0].value == v
    requires ScopeOf(e.1.category) == scope
    ensures Contributes(e, Factors, scope, Reported(e.1.quantity) * v)
  {
    if e.1.quantity <= 0.0 {
      assert Bucket(scope, 0.0 * v) == Zero;
    }
  }

  /** Emissions from the natural gas, heating oil and propane burnt on site: each reported quantity times its factor. */
  function StationaryAmount(a: Answers): real {
    Reported(a.naturalGas) * 0.244 + Reported(a.heatingOil) * 3.2 + Reported(a.propane) * 3.1
  }

  /** Emissions from the diesel and petrol used by the company fleet: each reported quantity times its factor. */
  function MobileAmount(a: Answers): real {
    Reported(a.diesel) * 3.16 + Reported(a.petrol) * 2.8
  }

  /** Emissions from the refrigerant refills: each reported quantity times its factor. */
  function FugitiveAmount(a: Answers): real {
    Reported(a.r410a) * 2088.0 + Reported(a.r32) * 675.0 + Reported(a.r134a) * 1430.0
  }

  /** Emissions from the electricity and district heat bought: each reported quantity times its factor. */
  function EnergyAmount(a: Answers): real {
    Reported(a.electricity) * 0.052 + Reported(a.districtHeat) * 0.170
  }

  /** Emissions from the kilometres driven in employees' own cars: each reported quantity times its factor. */
  function TravelAmount(a: Answers): real {
    Reported(a.greyFleetKm) * 0.218
  }

  /** Each of the stationary-combustion answers contributes its reported quantity times its factor to scope 1. */
  lemma StationaryEntries(a: Answers)
    ensures |StationaryInputs(a)| == 3
    ensures Contributes(StationaryInputs(a)[0], Factors, Scope1, Reported(a.naturalGas) * 0.244)
    ensures Contributes(StationaryInputs(a)[1], Factors, Scope1, Reported(a.heatingOil) * 3.2)
    ensures Contributes(StationaryInputs(a)[2], Factors, Scope1, Reported(a.propane) * 3.1)
  {
    FactorValues();
    CategoryScopes();
    AppEntryTotals(StationaryInputs(a)[0], Scope1, 0.244);
    AppEntryTotals(StationaryInputs(a)[1], Scope1, 3.2);
    AppEntryTotals(StationaryInputs(a)[2], Scope1, 3.1);
  }

  /** The stationary-combustion answers land in scope 1. */
  lemma StationaryTotals(a: Answers)
    ensures EntriesTotals(StationaryInputs(a), Factors) == Bucket(Scope1, StationaryAmount(a))
  {
    StationaryEntries(a);
    var s := StationaryInputs(a);
    var c := [Reported(a.naturalGas) * 0.244, Reported(a.heatingOil) * 3.2, Reported(a.propane) * 3.1];
    assert forall i :: 0 <= i < |s| ==> Contributes(s[i], Factors, Scope1, c[i]);
    SumOfFew(Reported(a.naturalGas) * 0.244, Reported(a.heatingOil) * 3.2, Reported(a.propane) * 3.1);
    SameScope(s, Factors, Scope1, c);
  }

  /** Each of the company-fleet answers contributes its reported quantity times its factor to scope 1. */
  lemma MobileEntries(a: Answers)
    ensures |MobileInputs(a)| == 2
    ensures Contributes(MobileInputs(a)[0], Factors, Scope1, Reported(a.diesel) * 3.16)
    ensures Contributes(MobileInputs(a)[1], Factors, Scope1, Reported(a.petrol) * 2.8)
  {
    FactorValues();
    CategoryScopes();
    AppEntryTotals(MobileInputs(a)[0], Scope1, 3.16);
    AppEntryTotals(MobileInputs(a)[1], Scope1, 2.8);
  }

  /** The company-fleet answers land in scope 1. */
  lemma MobileTotals(a: Answers)
    ensures EntriesTotals(MobileInputs(a), Factors) == Bucket(Scope1, MobileAmount(a))
  {
    MobileEntries(a);
    var s := MobileInputs(a);
    var c := [Reported(a.diesel) * 3.16, Reported(a.petrol) * 2.8];
    assert forall i :: 0 <= i < |s| ==> Contributes(s[i], Factors, Scope1, c[i]);
    SumOfFew(Reported(a.diesel) * 3.16, Reported(a.petrol) * 2.8, 0.0);
    SameScope(s, Factors, Scope1, c);
  }

  /** Each of the refrigerant-refill answers contributes its reported quantity times its factor to scope 1. */
  lemma FugitiveEntries(a: Answers)
    ensures |FugitiveInputs(a)| == 3
    ensures Contributes(FugitiveInputs(a)[0], Factors, Scope1, Reported(a.r410a) * 2088.0)
    ensures Contributes(FugitiveInputs(a)[1], Factors, Scope1, Reported(a.r32) * 675.0)
    ensures Contributes(FugitiveInputs(a)[2], Factors, Scope1, Reported(a.r134a) * 1430.0)
  {
    FactorValues();
    CategoryScopes();
    AppEntryTotals(FugitiveInputs(a)[0], Scope1, 2088.0);
    AppEntryTotals(FugitiveInputs(a)[1], Scope1, 675.0);
    AppEntryTotals(FugitiveInputs(a)[2], Scope1, 1430.0);
  }

  /** The refrigerant-refill answers land in scope 1. */
  lemma FugitiveTotals(a: Answers)
    ensures EntriesTotals(FugitiveInputs(a), Factors) == Bucket(Scope1, FugitiveAmount(a))
  {
    FugitiveEntries(a);
    var s := FugitiveInputs(a);
    var c := [Reported(a.r410a) * 2088.0, Reported(a.r32) * 675.0, Reported(a.r134a) * 1430.0];
    assert forall i :: 0 <= i < |s| ==> Contributes(s[i], Factors, Scope1, c[i]);
    SumOfFew(Reported(a.r410a) * 2088.0, Reported(a.r32) * 675.0, Reported(a.r134a) * 1430.0);
    SameScope(s, Factors, Scope1, c);
  }

  /** Each of the purchased-energy answers contributes its reported quantity times its factor to scope 2. */
  lemma EnergyEntries(a: Answers)
    ensures |EnergyInputs(a)| == 2
    ensures Contributes(EnergyInputs(a)[0], Factors, Scope2, Reported(a.electricity) * 0.052)
    ensures Contributes(EnergyInputs(a)[1], Factors, Scope2, Reported(a.districtHeat) * 0.170)
  {
    FactorValues();
    CategoryScopes();
    AppEntryTotals(EnergyInputs(a)[0], Scope2, 0.052);
    AppEntryTotals(EnergyInputs(a)[1], Scope2, 0.170);
  }

  /** The purchased-energy answers land in scope 2. */
  lemma EnergyTotals(a: Answers)
    ensures EntriesTotals(EnergyInputs(a), Factors) == Bucket(Scope2, EnergyAmount(a))
  {
    EnergyEntries(a);
    var s := EnergyInputs(a);
    var c := [Reported(a.electricity) * 0.052, Reported(a.districtHeat) * 0.170];
    assert forall i :: 0 <= i < |s| ==> Contributes(s[i], Factors, Scope2, c[i]);
    SumOfFew(Reported(a.electricity) * 0.052, Reported(a.districtHeat) * 0.170, 0.0);
    SameScope(s, Factors, Scope2, c);
  }

  /** Each of the grey-fleet answers contributes its reported quantity times its factor to scope 3. */
  lemma TravelEntries(a: Answers)
    ensures |TravelInputs(a)| == 1
    ensures Contributes(TravelInputs(a)[0], Factors, Scope3, Reported(a.greyFleetKm) * 0.218)
  {
    FactorValues();
    CategoryScopes();
    AppEntryTotals(TravelInputs(a)[0], Scope3, 0.218);
  }

  /** The grey-fleet answer lands in scope 3. */
  lemma TravelTotals(a: Answers)
    ensures EntriesTotals(TravelInputs(a), Factors) == Bucket(Scope3, TravelAmount(a))
  {
    TravelEntries(a);
    var s := TravelInputs(a);
    var c := [Reported(a.greyFleetKm) * 0.218];
    assert forall i :: 0 <= i < |s| ==> Contributes(s[i], Factors, Scope3, c[i]);
    SumOfFew(Reported(a.greyFleetKm) * 0.218, 0.0, 0.0);
    SameScope(s, Factors, Scope3, c);
  }

  /** End to end: the summary of the application's inputs is each positive
      answer times its factor, in the scope its category names. */
  lemma AppSummary(a: Answers)
    ensures Summarize(Calculate(AppInputs(a), Factors)) ==
      var s1 := StationaryAmount(a) + MobileAmount(a) + FugitiveAmount(a);
      Totals(s1, EnergyAmount(a), TravelAmount(a), s1 + EnergyAmount(a) + TravelAmount(a))
  {
    StationaryTotals(a);
    MobileTotals(a);
    FugitiveTotals(a);
    EnergyTotals(a);
    TravelTotals(a);
    SummaryFromGroups(a, StationaryAmount(a), MobileAmount(a), FugitiveAmount(a), EnergyAmount(a), TravelAmount(a));
  }

  /** The summary of the application's inputs, given what each group of
      answers adds to the totals. */
  lemma SummaryFromGroups(a: Answers, xs: real, xm: real, xf: real, xe: real, xt: real)
    requires EntriesTotals(StationaryInputs(a), Factors) == Bucket(Scope1, xs)
    requires EntriesTotals(MobileInputs(a), Factors) == Bucket(Scope1, xm)
    requires EntriesTotals(FugitiveInputs(a), Factors) == Bucket(Scope1, xf)
    requires EntriesTotals(EnergyInputs(a), Factors) == Bucket(Scope2, xe)
    requires EntriesTotals(TravelInputs(a), Factors) == Bucket(Scope3, xt)
    ensures Summarize(Calculate(AppInputs(a), Factors)) == Totals(xs + xm + xf, xe, xt, xs + xm + xf + xe + xt)
  {
    SummaryOfCalculation(AppInputs(a), Factors);
    EntriesTotalsOfFive(StationaryInputs(a), MobileInputs(a), FugitiveInputs(a), EnergyInputs(a), TravelInputs(a), Factors);
    CombinedBuckets(xs, xm, xf, xe, xt);
  }

  /** Entries that share one category naming a scope all name that scope. */
  lemma OneCategory(s: seq<Entry>, category: string)
    requires Recognised(ScopeOf(category))
    requires forall e :: e in s ==> e.1.category == category
    ensures CategoriesRecognised(s)
  {
    assert forall i :: 0 <= i < |s| ==> s[i] in s;
  }

  /** Each group of the form's inputs has categories naming a scope. */
  lemma GroupsRecognised(a: Answers)
    ensures CategoriesRecognised(StationaryInputs(a)) && CategoriesRecognised(MobileInputs(a))
    ensures CategoriesRecognised(FugitiveInputs(a)) && CategoriesRecognised(EnergyInputs(a))
    ensures CategoriesRecognised(TravelInputs(a))
  {
    CategoryScopes();
    OneCategory(StationaryInputs(a), Stationary);
    OneCategory(MobileInputs(a), Mobile);
    OneCategory(FugitiveInputs(a), Fugitive);
    OneCategory(EnergyInputs(a), Energy);
    OneCategory(TravelInputs(a), BusinessTravel);
  }

  /** Five runs of entries whose categories name a scope, joined. */
  lemma CategoriesOfFive(st: seq<Entry>, mo: seq<Entry>, fu: seq<Entry>, en: seq<Entry>, tr: seq<Entry>)
    requires CategoriesRecognised(st) && CategoriesRecognised(mo) && CategoriesRecognised(fu)
    requires CategoriesRecognised(en) && CategoriesRecognised(tr)
    ensures CategoriesRecognised(st + mo + fu + en + tr)
  {
    CategoriesRecognisedAppend(st, mo);
    CategoriesRecognisedAppend(st + mo, fu);
    CategoriesRecognisedAppend(st + mo + fu, en);
    CategoriesRecognisedAppend(st + mo + fu + en, tr);
  }

  /** Every category of the form names one of the three scopes. */
  lemma AppCategories(a: Answers)
    ensures CategoriesRecognised(AppInputs(a))
  {
    GroupsRecognised(a);
    CategoriesOfFive(StationaryInputs(a), MobileInputs(a), FugitiveInputs(a), EnergyInputs(a), TravelInputs(a));
  }

  /** Every row calculated from the form falls in one of the three scopes,
      so the summary's total is the sum of all calculated rows. */
  lemma AppRowsInScopes(a: Answers)
    ensures var rows := Calculate(AppInputs(a), Factors);
      && (forall j :: 0 <= j < |rows| ==> Recognised(rows[j].scope))
      && Summarize(rows).total == EmissionsSum(rows)
  {
    var inputs := AppInputs(a);
    var rows := Calculate(inputs, Factors);
    AppCategories(a);
    RowsRecognised(inputs, Factors);
    assert forall j :: 0 <= j < |rows| ==> Recognised(rows[j].scope);
    TotalIsEmissionsSum(rows);
  }

  /** Five runs of entries add up run by run. */
  lemma EntriesTotalsOfFive(st: seq<Entry>, mo: seq<Entry>, fu: seq<Entry>, en: seq<Entry>, tr: seq<Entry>, factors: map<string, Factor>)
    ensures EntriesTotals(st + mo + fu + en + tr, factors) ==
      Add(Add(Add(Add(EntriesTotals(st, factors), EntriesTotals(mo, factors)), EntriesTotals(fu, factors)),
        EntriesTotals(en, factors)), EntriesTotals(tr, factors))
  {
    EntriesTotalsAppend(st + mo + fu + en, tr, factors);
    EntriesTotalsAppend(st + mo + fu, en, factors);
    EntriesTotalsAppend(st + mo, fu, factors);
    EntriesTotalsAppend(st, mo, factors);
  }

  /** Three scope-1 amounts, a scope-2 amount and a scope-3 amount make
      these totals. */
  lemma CombinedBuckets(xs: real, xm: real, xf: real, xe: real, xt: real)
    ensures Add(Add(Add(Add(Bucket(Scope1, xs), Bucket(Scope1, xm)), Bucket(Scope1, xf)), Bucket(Scope2, xe)), Bucket(Scope3, xt))
      == Totals(xs + xm + xf, xe, xt, xs + xm + xf + xe + xt)
  {
    ScopeIndices();
  }
}
