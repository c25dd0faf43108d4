/** `calculateEstimate` (frontend/src/App.jsx): filament grams, print hours
    and price from a geometry's volume, the scale factor, the infill
    percentage and the selected material. `Math.cbrt` is a parameter. */
module Estimate {
  import opened Wrappers
  import opened Volume
  import opened Catalog

  /** Fallback price when a material has none (every material here). */
  const DefaultPricePerKg: real := 25.0
  /** Printer power draw, in watts. */
  const PrinterPowerW: real := 150.0
  /** Electricity tariff per kilowatt-hour. */
  const ElectricityPerKWh: real := 0.3
  const ExtraCost: real := 0.0

  datatype Estimate = Estimate(filamentGrams: real, timeHours: real, price: real)

  /** How a call ends: no geometry or no positions (nothing happens), a
      material missing from the table (reading `.density` of `undefined`
      throws), or an estimate. */
  datatype Outcome = Skipped | Threw | Ready(estimate: Estimate)

  /** `MATERIALS[material].pricePerKg || 25`: a missing or zero price falls
      back to the default. */
  function PricePerKg(m: Material): (p: real)
    ensures m.pricePerKg.None? ==> p == DefaultPricePerKg
    ensures m.pricePerKg.Some? && m.pricePerKg.value != 0.0 ==> p == m.pricePerKg.value
  {
    match m.pricePerKg
    case Some(p) => if p != 0.0 then p else DefaultPricePerKg
    case None => DefaultPricePerKg
  }

  /** The volume after the infill discount. */
  function Adjusted(volume: real, infill: real): real
  {
    volume * (infill / 100.0)
  }

  /** Grams of filament for an adjusted volume in mm³ and a density in
      g/cm³. */
  function Grams(adjusted: real, density: real): real
  {
    (adjusted / 1000.0) * density
  }

  function Hours(adjusted: real, cbrt: real -> real): real
  {
    cbrt(adjusted) * 10.0 / 60.0
  }

  function ElectricityCost(hours: real): real
  {
    ((PrinterPowerW * hours) / 1000.0) * ElectricityPerKWh
  }

  /** The formula chain after the volume is known. */
  function FromVolume(volume: real, infill: real, m: Material, cbrt: real -> real): (e: Estimate)
    ensures e.filamentGrams == Grams(Adjusted(volume, infill), m.density)
    ensures e.timeHours == Hours(Adjusted(volume, infill), cbrt)
    ensures e.price
         == (e.filamentGrams / 1000.0) * PricePerKg(m) + ElectricityCost(e.timeHours) + ExtraCost
  {
    var adjusted := Adjusted(volume, infill);
    var grams := Grams(adjusted, m.density);
    var hours := Hours(adjusted, cbrt);
    Estimate(grams, hours, (grams / 1000.0) * PricePerKg(m) + ElectricityCost(hours) + ExtraCost)
  }

  /** `volume * Math.pow(scaleFactor, 3)`. */
  function ScaledVolume(volume: real, scale: real): real
  {
    volume * (scale * scale * scale)
  }

  /** `calculateEstimate(geometry, scaleFactor)` with the state it reads
      (`material`, `infill`) passed explicitly. */
  function CalculateEstimate(positions: Option<Buffer>, scale: real, material: string,
                             infill: real, cbrt: real -> real): (r: Outcome)
    ensures r.Skipped? <==> positions.None?
    ensures r.Threw? <==> positions.Some? && MaterialNamed(material).None?
    ensures r.Ready? <==> positions.Some? && MaterialNamed(material).Some?
    ensures r.Ready? ==>
      r.estimate == FromVolume(ScaledVolume(GeometryVolume(positions.value), scale),
                               infill, MaterialNamed(material).value, cbrt)
  {
    match positions
    case None => Skipped
    case Some(buf) =>
      match MaterialNamed(material)
      case None => Threw
      case Some(m) => Ready(FromVolume(ScaledVolume(GeometryVolume(buf), scale), infill, m, cbrt))
  }

  /** No material in the table carries a price, so filament always costs
      the default 25 per kilogram. */
  lemma PriceIsAlwaysDefault(name: string)
    requires MaterialNamed(name).Some?
    ensures PricePerKg(MaterialNamed(name).value) == DefaultPricePerKg
  {
  }

  /** The price of any table material decomposes into filament at 25 per
      kilogram plus 150 W of electricity at 0.3 per kWh for the print
      time. */
  lemma PriceDecomposes(volume: real, infill: real, name: string, cbrt: real -> real)
    requires MaterialNamed(name).Some?
    ensures var e := FromVolume(volume, infill, MaterialNamed(name).value, cbrt);
      e.price == e.filamentGrams / 1000.0 * 25.0 + (150.0 * e.timeHours / 1000.0) * 0.3 + 0.0
  {
  }

  /** 1000 mm³ at 100 % infill in PLA (1.24 g/cm³) is 1.24 g. */
  lemma GramsExample(cbrt: real -> real)
    ensures MaterialNamed("PLA").Some?
    ensures FromVolume(1000.0 * (1.0 * 1.0 * 1.0), 100.0, MaterialNamed("PLA").value, cbrt).filamentGrams
         == 1.24
  {
    LookupFinds(MaterialTable(Materials), "PLA", 5);
  }

  /** The same volume at 50 % infill gives half the filament. */
  lemma GramsHalfInfill(cbrt: real -> real)
    ensures MaterialNamed("PLA").Some?
    ensures FromVolume(1000.0, 50.0, MaterialNamed("PLA").value, cbrt).filamentGrams == 0.62
  {
    LookupFinds(MaterialTable(Materials), "PLA", 5);
  }

  /** Filament grams are proportional to the infill. */
  lemma GramsLinearInInfill(volume: real, infill: real, density: real)
    ensures Grams(Adjusted(volume, infill), density)
         == Times(infill, Grams(Adjusted(volume, 1.0), density))
  {
  }

  /** Positions and a known material give an estimate, and nothing in it
      is negative for a non-negative scale and infill, provided the cube
      root of a non-negative number is non-negative. */
  lemma EstimateNonNegative(positions: Option<Buffer>, scale: real, material: string,
                            infill: real, cbrt: real -> real)
    requires scale >= 0.0 && infill >= 0.0
    requires forall x :: x >= 0.0 ==> cbrt(x) >= 0.0
    requires positions.Some? && MaterialNamed(material).Some?
    ensures CalculateEstimate(positions, scale, material, infill, cbrt).Ready?
    ensures var e := CalculateEstimate(positions, scale, material, infill, cbrt).estimate;
      e.filamentGrams >= 0.0 && e.timeHours >= 0.0 && e.price >= 0.0
  {
    ScaledVolumeNonNegative(GeometryVolume(positions.value), scale);
    MaterialDensityPositive(material);
    FromVolumeNonNegative(ScaledVolume(GeometryVolume(positions.value), scale),
                          infill, MaterialNamed(material).value, cbrt);
  }

  lemma MaterialDensityPositive(name: string)
    requires MaterialNamed(name).Some?
    ensures MaterialNamed(name).value.density > 0.0
  {
  }

  lemma ScaledVolumeNonNegative(v: real, s: real)
    requires v >= 0.0 && s >= 0.0
    ensures ScaledVolume(v, s) >= 0.0
  {
    NonNegativeProduct(s, s);
    NonNegativeProduct(s * s, s);
    NonNegativeProduct(v, s * s * s);
  }

  lemma FromVolumeNonNegative(volume: real, infill: real, m: Material, cbrt: real -> real)
    requires volume >= 0.0 && infill >= 0.0 && m.density >= 0.0
    requires forall x :: x >= 0.0 ==> cbrt(x) >= 0.0
    requires m.pricePerKg.Some? ==> m.pricePerKg.value >= 0.0
    ensures var e := FromVolume(volume, infill, m, cbrt);
      e.filamentGrams >= 0.0 && e.timeHours >= 0.0 && e.price >= 0.0
  {
    NonNegativeProduct(volume, infill / 100.0);
    var a := Adjusted(volume, infill);
    NonNegativeProduct(a / 1000.0, m.density);
    NonNegativeProduct(Grams(a, m.density) / 1000.0, PricePerKg(m));
  }

  lemma NonNegativeProduct(a: real, b: real)
    requires a >= 0.0 && b >= 0.0
    ensures a * b >= 0.0
  {
  }

  /** Multiplying the volume by `scale³`, as the source does, gives the
      estimate of the geometry actually scaled by `scale` (for the slider's
      non-negative range). */
  lemma ScaleEquivalence(buf: Buffer, scale: real, material: string,
                         infill: real, cbrt: real -> real)
    requires scale >= 0.0
    ensures CalculateEstimate(Some(buf), scale, material, infill, cbrt)
         == CalculateEstimate(Some(ScaleBuffer(buf, scale)), 1.0, material, infill, cbrt)
  {
    VolumeScalesTimes(buf, scale);
    ScaledVolumeMatches(GeometryVolume(buf), GeometryVolume(ScaleBuffer(buf, scale)), scale);
  }

  lemma ScaledVolumeMatches(v: real, w: real, s: real)
    requires s >= 0.0
    requires w == Times(Cube(Abs(s)), v)
    ensures ScaledVolume(v, s) == ScaledVolume(w, 1.0)
  {
  }
}
