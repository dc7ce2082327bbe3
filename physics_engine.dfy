/**
 * The physics-based power estimate (physics/physics_engine.py): plausibility
 * of the irradiance components, the angle of incidence on the panel, the
 * plane-of-array irradiance, the cell temperature and its correction, and the
 * hourly power.
 *
 * The trigonometry (`math.cos`, `math.sin`, `math.acos` with the
 * degree/radian conversions) arrives as the functions of a `Trig` value;
 * nothing here depends on what those functions return, because every result
 * the source hands back is clamped before it leaves.
 */
module Physics {
  import opened Common

  /** The sun's elevation and azimuth, in degrees. */
  datatype SunPosition = SunPosition(elevationDeg: real, azimuthDeg: real)
  {
    /** The solar zenith angle, 90 − elevation. */
    function ZenithDeg(): real
    {
      90.0 - elevationDeg
    }
  }

  /** The panel's tilt and azimuth, in degrees. */
  datatype PanelGeometry = PanelGeometry(tiltDeg: real, azimuthDeg: real)

  /** Cosine and sine of an angle in degrees, and the arc cosine in degrees. */
  datatype Trig = Trig(cosDeg: real -> real, sinDeg: real -> real, acosDeg: real -> real)

  /** Global horizontal, direct normal and diffuse horizontal irradiance, in W/m². */
  datatype IrradianceData = IrradianceData(ghi: real, dni: real, dhi: real)
  {
    /** `is_valid`: no component negative and the global irradiance at most 1400 W/m². */
    predicate IsValid()
    {
      if ghi < 0.0 || dni < 0.0 || dhi < 0.0 then false
      else if ghi > 1400.0 then false
      else true
    }
  }

  /** An irradiance triple is plausible exactly when no component is negative and GHI is at most 1400. */
  lemma IsValidIff(irr: IrradianceData)
    ensures irr.IsValid() <==> irr.ghi >= 0.0 && irr.dni >= 0.0 && irr.dhi >= 0.0 && irr.ghi <= 1400.0
  {
  }

  datatype PoaResult = PoaResult(poaTotal: real, poaBeam: real, poaDiffuse: real, poaGround: real, aoiDeg: real)

  datatype PowerResult = PowerResult(powerKwh: real, poaWm2: real, tempCorrection: real, systemEfficiency: real)

  /** TEMP_COEFFICIENT, per kelvin. */
  const TempCoefficient: real := -0.004
  /** STC_TEMPERATURE, °C. */
  const StcTemperature: real := 25.0
  /** NOCT, °C. */
  const Noct: real := 45.0
  /** NOCT_IRRADIANCE, W/m². */
  const NoctIrradiance: real := 800.0
  /** NOCT_AMBIENT, °C. */
  const NoctAmbient: real := 20.0
  const DefaultTilt: real := 30.0
  const DefaultAzimuth: real := 180.0
  const DefaultAlbedo: real := 0.2
  const DefaultSystemEfficiency: real := 0.90

  /**
   * The diffuse scale-down near the horizon: 1.0 at and above 3° (and below
   * −2°), falling linearly from 3° to 0 at −2°.
   */
  function DiffuseFactor(elevationDeg: real): (f: real)
    ensures 0.0 <= f <= 1.0
    ensures elevationDeg >= 3.0 || elevationDeg < -2.0 ==> f == 1.0
    ensures elevationDeg == -2.0 ==> f == 0.0
  {
    var isTwilight := -2.0 <= elevationDeg <= 5.0;
    if isTwilight && elevationDeg < 3.0 then Max(0.0, (elevationDeg + 2.0) / 5.0) else 1.0
  }

  /** Within the twilight band the factor grows with the sun's elevation. */
  lemma DiffuseFactorMonotone(e1: real, e2: real)
    requires -2.0 <= e1 <= e2 <= 5.0
    ensures DiffuseFactor(e1) <= DiffuseFactor(e2)
  {
  }

  /** The cosine of the angle of incidence, clamped to [−1, 1] for the arc cosine. */
  function CosAoi(sun: SunPosition, geometry: PanelGeometry, trig: Trig): (c: real)
    ensures -1.0 <= c <= 1.0
  {
    var raw := trig.cosDeg(sun.ZenithDeg()) * trig.cosDeg(geometry.tiltDeg)
      + trig.sinDeg(sun.ZenithDeg()) * trig.sinDeg(geometry.tiltDeg) * trig.cosDeg(sun.azimuthDeg - geometry.azimuthDeg);
    Max(-1.0, Min(1.0, raw))
  }

  /** The power contributed when the plane-of-array irradiance is positive. */
  function PowerKwh(poaTotal: real, capacityKwp: real, tempCorrection: real, efficiency: real): real
  {
    Max(0.0, (poaTotal / 1000.0) * capacityKwp * tempCorrection * efficiency)
  }

  /** With the correction at most 1.2, the power is at most 1.2 times the nominal output. */
  lemma PowerKwhAtMostNominal(poaTotal: real, capacityKwp: real, tempCorrection: real, efficiency: real)
    requires poaTotal > 0.0 && capacityKwp >= 0.0 && efficiency >= 0.0
    requires 0.5 <= tempCorrection <= 1.2
    ensures PowerKwh(poaTotal, capacityKwp, tempCorrection, efficiency) <= 1.2 * ((poaTotal / 1000.0) * capacityKwp * efficiency)
  {
    var nominal := (poaTotal / 1000.0) * capacityKwp;
    assert nominal >= 0.0;
    MulMonotone(tempCorrection, 1.2, nominal);
    MulMonotone(nominal * tempCorrection, nominal * 1.2, efficiency);
    assert nominal * tempCorrection == tempCorrection * nominal;
    assert (nominal * 1.2) * efficiency == 1.2 * (nominal * efficiency);
    assert (nominal * 1.2) * efficiency >= 0.0;
  }

  class PhysicsEngine {
    var systemCapacityKwp: real
    var albedo: real
    var systemEfficiency: real
    var geometry: PanelGeometry
    var geometryConfidence: real

    /**
     * A missing tilt or azimuth falls back to 30° and 180° (south); the
     * geometry confidence is 0.0 when the tilt was not given and 1.0 when it was.
     */
    constructor (capacityKwp: real, tilt: Option<real>, azimuth: Option<real>, albedo: real, efficiency: real)
      ensures systemCapacityKwp == capacityKwp && this.albedo == albedo && systemEfficiency == efficiency
      ensures geometry.tiltDeg == (if tilt.Some? then tilt.value else DefaultTilt)
      ensures geometry.azimuthDeg == (if azimuth.Some? then azimuth.value else DefaultAzimuth)
      ensures geometryConfidence == if tilt.None? then 0.0 else 1.0
    {
      systemCapacityKwp := capacityKwp;
      this.albedo := albedo;
      systemEfficiency := efficiency;
      geometry := PanelGeometry(
        if tilt.Some? then tilt.value else DefaultTilt,
        if azimuth.Some? then azimuth.value else DefaultAzimuth);
      geometryConfidence := if tilt.None? then 0.0 else 1.0;
    }

    /** `update_geometry`: the learnt geometry and its confidence replace the current ones; nothing else changes. */
    method UpdateGeometry(tiltDeg: real, azimuthDeg: real, confidence: real)
      modifies this
      ensures geometry == PanelGeometry(tiltDeg, azimuthDeg) && geometryConfidence == confidence
      ensures systemCapacityKwp == old(systemCapacityKwp) && albedo == old(albedo)
      ensures systemEfficiency == old(systemEfficiency)
    {
      geometry := PanelGeometry(tiltDeg, azimuthDeg);
      geometryConfidence := confidence;
    }

    /** The geometry a calculation uses: the one passed in, else the engine's own. */
    function GeometryOr(given: Option<PanelGeometry>): (g: PanelGeometry)
      reads this
      ensures given.None? ==> g == geometry
      ensures given.Some? ==> g == given.value
    {
      if given.Some? then given.value else geometry
    }

    /**
     * `calculate_angle_of_incidence`: 90° when the sun is at or below the
     * horizon, otherwise the arc cosine of the clamped incidence cosine.
     */
    function AngleOfIncidence(sun: SunPosition, given: Option<PanelGeometry>, trig: Trig): (aoi: real)
      reads this
      ensures sun.elevationDeg <= 0.0 ==> aoi == 90.0
      ensures sun.elevationDeg > 0.0 ==> aoi == trig.acosDeg(CosAoi(sun, GeometryOr(given), trig))
    {
      if sun.elevationDeg <= 0.0 then 90.0
      else trig.acosDeg(CosAoi(sun, GeometryOr(given), trig))
    }

    /**
     * `calculate_poa_irradiance`: implausible irradiance gives nothing at
     * 90°; otherwise the beam (only when the sun is up and in front of the
     * panel), the isotropic sky diffuse and the ground reflection, the last
     * two scaled down in twilight; every reported component is floored at 0.
     */
    function PoaIrradiance(irr: IrradianceData, sun: SunPosition, given: Option<PanelGeometry>, trig: Trig): (r: PoaResult)
      reads this
      ensures !irr.IsValid() ==> r == PoaResult(0.0, 0.0, 0.0, 0.0, 90.0)
      ensures r.poaTotal >= 0.0 && r.poaBeam >= 0.0 && r.poaDiffuse >= 0.0 && r.poaGround >= 0.0
      ensures sun.elevationDeg <= 0.0 ==> r.poaBeam == 0.0 && r.aoiDeg == 90.0
    {
      if !irr.IsValid() then PoaResult(0.0, 0.0, 0.0, 0.0, 90.0)
      else
        var g := GeometryOr(given);
        var aoi := if sun.elevationDeg <= 0.0 then 90.0 else AngleOfIncidence(sun, Some(g), trig);
        var beam := if sun.elevationDeg > 0.0 && aoi < 90.0 then irr.dni * trig.cosDeg(aoi) else 0.0;
        var factor := DiffuseFactor(sun.elevationDeg);
        var diffuse := irr.dhi * (1.0 + trig.cosDeg(g.tiltDeg)) / 2.0 * factor;
        var ground := irr.ghi * albedo * (1.0 - trig.cosDeg(g.tiltDeg)) / 2.0 * factor;
        PoaResult(Max(0.0, beam + diffuse + ground), Max(0.0, beam), Max(0.0, diffuse), Max(0.0, ground), aoi)
    }

    /** The total never exceeds the sum of the reported components. */
    lemma PoaTotalAtMostComponents(irr: IrradianceData, sun: SunPosition, given: Option<PanelGeometry>, trig: Trig)
      ensures var r := PoaIrradiance(irr, sun, given, trig);
        r.poaTotal <= r.poaBeam + r.poaDiffuse + r.poaGround
    {
    }

    /** `calculate_cell_temperature`: the NOCT model, ambient plus 25 K per 800 W/m²; the ambient temperature without irradiance. */
    static function CellTemperature(ambientC: real, poaWm2: real): (t: real)
      ensures poaWm2 <= 0.0 ==> t == ambientC
      ensures poaWm2 > 0.0 ==> t > ambientC
    {
      if poaWm2 <= 0.0 then ambientC
      else ambientC + (Noct - NoctAmbient) * (poaWm2 / NoctIrradiance)
    }

    /** More irradiance never gives a cooler cell. */
    static lemma CellTemperatureMonotone(ambientC: real, p1: real, p2: real)
      requires p1 <= p2
      ensures CellTemperature(ambientC, p1) <= CellTemperature(ambientC, p2)
    {
    }

    /** `calculate_temperature_correction`: −0.4 % per kelvin above 25 °C, clamped to [0.5, 1.2]. */
    static function TemperatureCorrection(cellC: real): (c: real)
      ensures 0.5 <= c <= 1.2
      ensures cellC == StcTemperature ==> c == 1.0
    {
      Max(0.5, Min(1.2, 1.0 + TempCoefficient * (cellC - StcTemperature)))
    }

    /** A hotter cell never gets a larger correction. */
    static lemma TemperatureCorrectionMonotone(c1: real, c2: real)
      requires c1 <= c2
      ensures TemperatureCorrection(c2) <= TemperatureCorrection(c1)
    {
    }

    /**
     * `calculate_power_output`: no plane-of-array irradiance gives 0 kWh with
     * a neutral correction; otherwise POA/1000 × capacity × temperature
     * correction × efficiency, floored at 0.
     */
    function PowerOutput(irr: IrradianceData, sun: SunPosition, ambientC: real, given: Option<PanelGeometry>, trig: Trig): (r: PowerResult)
      reads this
      ensures r.powerKwh >= 0.0 && 0.5 <= r.tempCorrection <= 1.2
      ensures r.systemEfficiency == systemEfficiency
      ensures PoaIrradiance(irr, sun, given, trig).poaTotal <= 0.0 ==> r == PowerResult(0.0, 0.0, 1.0, systemEfficiency)
      ensures !irr.IsValid() ==> r.powerKwh == 0.0
    {
      var poa := PoaIrradiance(irr, sun, given, trig);
      if poa.poaTotal <= 0.0 then PowerResult(0.0, 0.0, 1.0, systemEfficiency)
      else
        var cell := CellTemperature(ambientC, poa.poaTotal);
        var correction := TemperatureCorrection(cell);
        PowerResult(PowerKwh(poa.poaTotal, systemCapacityKwp, correction, systemEfficiency), poa.poaTotal, correction, systemEfficiency)
    }

    /**
     * With a non-negative capacity and efficiency the power never exceeds
     * 1.2 times the nominal POA/1000 × capacity × efficiency.
     */
    lemma PowerAtMostNominal(irr: IrradianceData, sun: SunPosition, ambientC: real, given: Option<PanelGeometry>, trig: Trig)
      requires systemCapacityKwp >= 0.0 && systemEfficiency >= 0.0
      ensures var r := PowerOutput(irr, sun, ambientC, given, trig);
        r.powerKwh <= 1.2 * ((r.poaWm2 / 1000.0) * systemCapacityKwp * systemEfficiency)
    {
      var poa := PoaIrradiance(irr, sun, given, trig);
      if poa.poaTotal > 0.0 {
        var r := PowerOutput(irr, sun, ambientC, given, trig);
        PowerKwhAtMostNominal(poa.poaTotal, systemCapacityKwp, r.tempCorrection, systemEfficiency);
      }
    }
  }
}
