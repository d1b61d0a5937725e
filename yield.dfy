/** The solar-yield estimator of app.js: the radiation choice, the area
    source, the yield arithmetic of recalc and what the result panel shows. */
module Yield {
  import opened Geo

  /** The `suitSel` value that selects the high-suitability class alone. */
  const High: string := "high"
  /** The `areaMode` value that takes the area from the drawn polygon. */
  const PolygonMode: string := "polygon"
  /** Square metres in one square kilometre. */
  const M2PerKm2: real := 1000000.0

  /** weightedSR: the high-class radiation alone, or the plain (not
      area-weighted) mean of the high and moderate radiations. */
  function WeightedSR(suitSel: string, srHigh: real, srMod: real): (sr: real)
    ensures suitSel == High ==> sr == srHigh
    ensures suitSel != High ==> sr - srHigh == srMod - sr
    ensures srHigh <= srMod ==> srHigh <= sr <= srMod
    ensures srMod <= srHigh ==> srMod <= sr <= srHigh
  {
    if suitSel == High then srHigh else (srHigh + srMod) / 2.0
  }

  /** The high-class radiation is returned unchanged exactly when the
      selection is "high" or the two radiations coincide. */
  lemma WeightedSRIsHighExactly(suitSel: string, srHigh: real, srMod: real)
    ensures WeightedSR(suitSel, srHigh, srMod) == srHigh <==> suitSel == High || srHigh == srMod
  {
  }

  /** km² to m²; the panel's division by one million recovers the km². */
  function KmToM2(km2: real): (m2: real)
    ensures m2 / M2PerKm2 == km2
    ensures 0.0 <= km2 <==> 0.0 <= m2
  {
    km2 * M2PerKm2
  }

  /** availableAreaM2: in polygon mode the polygon's area (may be null);
      otherwise the preset class areas in m², summed as the selection says. */
  function AvailableAreaM2(areaMode: string, suitSel: string, presetHighKm2: real, presetModKm2: real,
                           polygon: Option<Polygon>, turfArea: AreaOracle): (a: Option<real>)
    ensures areaMode == PolygonMode ==> a == PolygonAreaM2(polygon, turfArea)
    ensures areaMode != PolygonMode ==> a.Some?
    ensures areaMode != PolygonMode && suitSel == High ==> a.value / M2PerKm2 == presetHighKm2
    ensures areaMode != PolygonMode && suitSel != High ==> a.value / M2PerKm2 == presetHighKm2 + presetModKm2
  {
    if areaMode == PolygonMode then
      PolygonAreaM2(polygon, turfArea)
    else
      var highM2 := KmToM2(presetHighKm2);
      var modM2 := KmToM2(presetModKm2);
      if suitSel == High then Some(highM2) else Some(highM2 + modM2)
  }

  /** In preset mode a non-negative moderate area never makes the
      high-plus-moderate area smaller than the high-only area. */
  lemma PresetModerateAddsArea(suitSel: string, presetHighKm2: real, presetModKm2: real,
                               polygon: Option<Polygon>, turfArea: AreaOracle, mode: string)
    requires mode != PolygonMode && suitSel != High && 0.0 <= presetModKm2
    ensures AvailableAreaM2(mode, High, presetHighKm2, presetModKm2, polygon, turfArea).value
         <= AvailableAreaM2(mode, suitSel, presetHighKm2, presetModKm2, polygon, turfArea).value
  {
    assert KmToM2(presetModKm2) >= 0.0;
  }

  /** Used area: the share of the available area given by the coverage
      percentage (used : available = coverage : 100). */
  function UsedArea(availM2: real, covPct: real): (used: real)
    ensures used * 100.0 == availM2 * covPct
  {
    var coverage := covPct / 100.0;
    availM2 * coverage
  }

  /** For a coverage percentage in [0, 100] the used area lies between zero
      and the available area; full coverage uses all of it, none uses none. */
  lemma UsedAreaBounds(availM2: real, covPct: real)
    ensures 0.0 <= covPct <= 100.0 && 0.0 <= availM2 ==> 0.0 <= UsedArea(availM2, covPct) <= availM2
    ensures covPct == 100.0 ==> UsedArea(availM2, covPct) == availM2
    ensures covPct == 0.0 || availM2 == 0.0 ==> UsedArea(availM2, covPct) == 0.0
  {
    var c := covPct / 100.0;
    assert UsedArea(availM2, covPct) == availM2 * c;
    if 0.0 <= covPct <= 100.0 && 0.0 <= availM2 {
      PercentMonotone(0.0, covPct);
      PercentMonotone(covPct, 100.0);
      ScaleMonotone(availM2, 0.0, c);
      ScaleMonotone(availM2, c, 1.0);
    }
  }

  /** Energy (kWh/yr) = radiation × used area × efficiency × performance ratio. */
  function Energy(srUsed: real, usedM2: real, eff: real, pr: real): (e: real)
    ensures srUsed == 0.0 || usedM2 == 0.0 || eff == 0.0 || pr == 0.0 ==> e == 0.0
  {
    srUsed * usedM2 * eff * pr
  }

  /** Energy is zero exactly when one of its four factors is zero, and it is
      non-negative when all four are. */
  lemma EnergySign(srUsed: real, usedM2: real, eff: real, pr: real)
    ensures Energy(srUsed, usedM2, eff, pr) == 0.0 <==> srUsed == 0.0 || usedM2 == 0.0 || eff == 0.0 || pr == 0.0
    ensures 0.0 <= srUsed && 0.0 <= usedM2 && 0.0 <= eff && 0.0 <= pr ==> 0.0 <= Energy(srUsed, usedM2, eff, pr)
  {
    var a := srUsed * usedM2;
    var b := a * eff;
    assert Energy(srUsed, usedM2, eff, pr) == b * pr;
    assert a == 0.0 <==> srUsed == 0.0 || usedM2 == 0.0;
    assert b == 0.0 <==> a == 0.0 || eff == 0.0;
    assert b * pr == 0.0 <==> b == 0.0 || pr == 0.0;
  }

  /** Household equivalents: there is a value only when the household
      consumption is positive, and that many households consume the energy. */
  function Homes(energyKWh: real, hh: real): (h: Option<real>)
    ensures h.Some? <==> 0.0 < hh
    ensures h.Some? ==> h.value * hh == energyKWh
  {
    if 0.0 < hh then Some(energyKWh / hh) else None
  }

  /** Avoided CO2 (kg/yr) = energy × emission factor. */
  function Co2(energyKWh: real, ef: real): (c: real)
    ensures ef != 0.0 ==> c / ef == energyKWh
    ensures energyKWh == 0.0 || ef == 0.0 ==> c == 0.0
    ensures 0.0 <= energyKWh && 0.0 <= ef ==> 0.0 <= c
  {
    energyKWh * ef
  }

  /** The form fields recalc reads (already parsed). */
  datatype Inputs = Inputs(
    eff: real,            // panel technology efficiency, 0-1
    pr: real,             // performance ratio, 0-1
    ef: real,             // emission factor, kg CO2 per kWh
    hh: real,             // household consumption, kWh per year
    suitSel: string,      // "high" or any other class selection
    covPct: real,         // coverage, percent
    srHigh: real,         // radiation of the high class, kWh/m²/yr
    srMod: real,          // radiation of the moderate class, kWh/m²/yr
    areaMode: string,     // "polygon" or a preset mode
    presetHighKm2: real,  // preset high-class area, km²
    presetModKm2: real)   // preset moderate-class area, km²

  /** What recalc computes: either the early return of polygon mode without a
      usable area (only the radiation is shown), or the full estimate. */
  datatype Outcome =
    | NoArea(srUsed: real)
    | Estimate(availM2: real, usedM2: real, srUsed: real, energyKWh: real, homes: Option<real>, co2Kg: real)

  /** recalc's arithmetic and its polygon-mode guard, with the retained
      polygon and turf.area as parameters. */
  function Recalc(inp: Inputs, polygon: Option<Polygon>, turfArea: AreaOracle): (out: Outcome)
    ensures out.srUsed == WeightedSR(inp.suitSel, inp.srHigh, inp.srMod)
    ensures out.NoArea? <==>
              inp.areaMode == PolygonMode &&
              (polygon.None? || turfArea(polygon.value).None? || turfArea(polygon.value) == Some(0.0))
    ensures out.Estimate? ==>
              AvailableAreaM2(inp.areaMode, inp.suitSel, inp.presetHighKm2, inp.presetModKm2, polygon, turfArea)
                == Some(out.availM2)
    ensures out.Estimate? && inp.areaMode == PolygonMode ==> 0.0 < out.availM2
    ensures out.Estimate? ==>
              && out.usedM2 == UsedArea(out.availM2, inp.covPct)
              && out.energyKWh == Energy(out.srUsed, out.usedM2, inp.eff, inp.pr)
              && out.homes == Homes(out.energyKWh, inp.hh)
              && out.co2Kg == Co2(out.energyKWh, inp.ef)
  {
    var availM2 := AvailableAreaM2(inp.areaMode, inp.suitSel, inp.presetHighKm2, inp.presetModKm2, polygon, turfArea);
    if inp.areaMode == PolygonMode && (availM2.None? || availM2.value <= 0.0) then
      NoArea(WeightedSR(inp.suitSel, inp.srHigh, inp.srMod))
    else
      var srUsed := WeightedSR(inp.suitSel, inp.srHigh, inp.srMod);
      var avail := availM2.GetOr(0.0);
      var usedM2 := UsedArea(avail, inp.covPct);
      var energyKWh := Energy(srUsed, usedM2, inp.eff, inp.pr);
      Estimate(avail, usedM2, srUsed, energyKWh, Homes(energyKWh, inp.hh), Co2(energyKWh, inp.ef))
  }

  /** In preset mode the drawn polygon plays no part and there is always an estimate. */
  lemma PresetIgnoresPolygon(inp: Inputs, p1: Option<Polygon>, f1: AreaOracle, p2: Option<Polygon>, f2: AreaOracle)
    requires inp.areaMode != PolygonMode
    ensures Recalc(inp, p1, f1).Estimate?
    ensures Recalc(inp, p1, f1) == Recalc(inp, p2, f2)
  {
  }

  /** With non-negative factors, more coverage never yields less energy. */
  lemma EnergyMonotoneInCoverage(inp: Inputs, cov1: real, cov2: real, polygon: Option<Polygon>, turfArea: AreaOracle)
    requires cov1 <= cov2
    requires 0.0 <= inp.srHigh && 0.0 <= inp.srMod && 0.0 <= inp.eff && 0.0 <= inp.pr
    requires 0.0 <= inp.presetHighKm2 && 0.0 <= inp.presetModKm2
    requires Recalc(inp, polygon, turfArea).Estimate?
    ensures Recalc(inp.(covPct := cov1), polygon, turfArea).Estimate?
    ensures Recalc(inp.(covPct := cov2), polygon, turfArea).Estimate?
    ensures Recalc(inp.(covPct := cov1), polygon, turfArea).energyKWh
         <= Recalc(inp.(covPct := cov2), polygon, turfArea).energyKWh
  {
    var o1 := Recalc(inp.(covPct := cov1), polygon, turfArea);
    var o2 := Recalc(inp.(covPct := cov2), polygon, turfArea);
    assert o1.availM2 == o2.availM2 && o1.srUsed == o2.srUsed;
    UsedAreaMonotone(o1.availM2, cov1, cov2);
    EnergyMonotone(o1.srUsed, o1.usedM2, o2.usedM2, inp.eff, inp.pr);
  }

  /** Used area grows with coverage. */
  lemma UsedAreaMonotone(availM2: real, cov1: real, cov2: real)
    requires 0.0 <= availM2 && cov1 <= cov2
    ensures UsedArea(availM2, cov1) <= UsedArea(availM2, cov2)
  {
    var c1, c2 := cov1 / 100.0, cov2 / 100.0;
    PercentMonotone(cov1, cov2);
    ScaleMonotone(availM2, c1, c2);
    assert UsedArea(availM2, cov1) == availM2 * c1;
    assert UsedArea(availM2, cov2) == availM2 * c2;
  }

  /** Dividing by one hundred keeps order. */
  lemma PercentMonotone(p1: real, p2: real)
    requires p1 <= p2
    ensures p1 / 100.0 <= p2 / 100.0
  {
  }

  /** Energy grows with used area when the other factors are non-negative. */
  lemma EnergyMonotone(srUsed: real, used1: real, used2: real, eff: real, pr: real)
    requires 0.0 <= srUsed && 0.0 <= eff && 0.0 <= pr && used1 <= used2
    ensures Energy(srUsed, used1, eff, pr) <= Energy(srUsed, used2, eff, pr)
  {
    ScaleMonotone(srUsed, used1, used2);
    ScaleMonotone(eff, srUsed * used1, srUsed * used2);
    ScaleMonotone(pr, srUsed * used1 * eff, srUsed * used2 * eff);
  }

  /** Scaling by a non-negative factor keeps order. */
  lemma ScaleMonotone(a: real, x: real, y: real)
    requires 0.0 <= a && x <= y
    ensures a * x <= a * y
  {
    var d := y - x;
    assert 0.0 <= a * d;
    assert a * y == a * x + a * d;
  }

  /** The household and CO2 figures describe the same energy: CO2 equals
      households × consumption × emission factor. */
  lemma Co2PerHousehold(energyKWh: real, hh: real, ef: real)
    requires 0.0 < hh
    ensures Co2(energyKWh, ef) == Homes(energyKWh, hh).value * hh * ef
  {
  }

  /** A worked scenario: 1 km² of high-class preset area, 1800 kWh/m²/yr,
      40 % coverage, 13.1 % efficiency, PR 0.75, 2400 kWh per household,
      0.45 kg CO2/kWh. */
  lemma ReferenceScenario(polygon: Option<Polygon>, turfArea: AreaOracle)
    ensures Recalc(Inputs(0.131, 0.75, 0.45, 2400.0, High, 40.0, 1800.0, 1700.0, "preset", 1.0, 0.5),
                   polygon, turfArea)
         == Estimate(1000000.0, 400000.0, 1800.0, 70740000.0, Some(29475.0), 31833000.0)
  {
  }

  /** What `fmt` shows: '—' for a value that is not a finite number,
      otherwise the number with at most `digits` fraction digits. */
  datatype Shown = Dash | Number(value: real, digits: nat)

  function Fmt(x: Option<real>, digits: nat): (s: Shown)
    ensures s.Dash? <==> x.None?
    ensures s.Number? ==> s.value == x.value && s.digits == digits
  {
    match x
    case None => Dash
    case Some(v) => Number(v, digits)
  }

  /** The note under the used area. */
  datatype Note = DrawPolygonHint | PolygonAreaKm2(km2: Shown) | PresetAreaKm2(km2: Shown)

  /** The result fields recalc writes, and the polygon status pill. */
  datatype Panel = Panel(usedAreaKm2: Shown, usedAreaNote: Note, srUsed: Shown,
                         energy: Shown, homes: Shown, co2: Shown, polygonDrawn: bool)

  /** recalc's DOM writes for an outcome. */
  function Render(out: Outcome, areaMode: string, polygonDrawn: bool): (p: Panel)
    ensures p.srUsed == Number(out.srUsed, 0)
    ensures p.energy.Number? ==> p.energy.digits == 0
    ensures p.co2.Number? ==> p.co2.digits == 0
    ensures p.homes.Number? ==> p.homes.digits == 0
    ensures p.usedAreaKm2.Number? ==> p.usedAreaKm2.digits == 2
    ensures p.energy.Dash? <==> out.NoArea?
    ensures p.co2.Dash? <==> out.NoArea?
    ensures p.homes.Dash? <==> out.NoArea? || out.homes.None?
    ensures p.usedAreaKm2.Dash? <==> out.NoArea?
    ensures p.usedAreaNote.DrawPolygonHint? <==> out.NoArea?
    ensures out.Estimate? ==>
              && p.energy.value == out.energyKWh
              && p.co2.value == out.co2Kg
              && (out.homes.Some? ==> p.homes.value == out.homes.value)
              && p.usedAreaKm2.value * M2PerKm2 == out.usedM2
              && p.usedAreaNote.km2.Number?
              && p.usedAreaNote.km2.digits == 2
              && p.usedAreaNote.km2.value * M2PerKm2 == out.availM2
              && (p.usedAreaNote.PolygonAreaKm2? <==> areaMode == PolygonMode)
    ensures p.polygonDrawn == polygonDrawn
  {
    match out
    case NoArea(sr) =>
      Panel(Dash, DrawPolygonHint, Fmt(Some(sr), 0), Dash, Dash, Dash, polygonDrawn)
    case Estimate(availM2, usedM2, sr, energyKWh, homes, co2Kg) =>
      var availKm2 := Fmt(Some(availM2 / M2PerKm2), 2);
      var note := if areaMode == PolygonMode then PolygonAreaKm2(availKm2) else PresetAreaKm2(availKm2);
      Panel(Fmt(Some(usedM2 / M2PerKm2), 2), note, Fmt(Some(sr), 0),
            Fmt(Some(energyKWh), 0), Fmt(homes, 0), Fmt(Some(co2Kg), 0), polygonDrawn)
  }

  /** The whole recalc: compute, then show. The energy is shown exactly when
      the polygon-mode guard does not fire, and then it is the computed one. */
  function Show(inp: Inputs, polygon: Option<Polygon>, turfArea: AreaOracle): (p: Panel)
    ensures p.polygonDrawn <==> polygon.Some?
    ensures p.energy.Dash? <==>
              inp.areaMode == PolygonMode &&
              (polygon.None? || turfArea(polygon.value).None? || turfArea(polygon.value) == Some(0.0))
    ensures p.energy.Number? ==> p.energy.value == Recalc(inp, polygon, turfArea).energyKWh
    ensures p.srUsed == Number(WeightedSR(inp.suitSel, inp.srHigh, inp.srMod), 0)
  {
    Render(Recalc(inp, polygon, turfArea), inp.areaMode, polygon.Some?)
  }

  /** Polygon mode with no retained polygon shows no energy, no homes and
      no CO2, asks for a polygon, and reports the polygon as not drawn. */
  lemma NoPolygonShowsDashes(inp: Inputs, turfArea: AreaOracle)
    requires inp.areaMode == PolygonMode
    ensures Show(inp, None, turfArea).energy == Dash
    ensures Show(inp, None, turfArea).homes == Dash
    ensures Show(inp, None, turfArea).co2 == Dash
    ensures Show(inp, None, turfArea).usedAreaNote == DrawPolygonHint
    ensures !Show(inp, None, turfArea).polygonDrawn
  {
  }

  /** Household equivalents are shown as a number exactly when there is an
      estimate and the household consumption is positive. */
  lemma HomesShownIffConsumptionPositive(inp: Inputs, polygon: Option<Polygon>, turfArea: AreaOracle)
    ensures Show(inp, polygon, turfArea).homes.Number? <==>
              Recalc(inp, polygon, turfArea).Estimate? && 0.0 < inp.hh
  {
  }
}
