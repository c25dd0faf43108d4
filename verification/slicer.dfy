/** The `/api/slice` handler of backend/server.js: reject a request without
    an upload, run the slicing engine, read the filament length and print
    time out of its standard output, and turn them into filament mass,
    print hours and a price. The engine run is a parameter; NaN is None. */
module Slicer {
  import opened Wrappers
  import opened Text
  import opened Pattern
  import opened Number
  import Catalog

  /** `Math.PI`, as the decimal the double prints as. */
  const Pi: real := 3.141592653589793
  /** Filament diameter, in millimetres. */
  const FilamentDiameter: real := 1.75
  const CostPerGram: real := 0.05
  const CostPerHour: real := 0.20

  /** Cross-section of the filament in mm², `π·(d/2)²`. */
  const FilamentArea: real := Pi * ((FilamentDiameter / 2.0) * (FilamentDiameter / 2.0))

  /** Density by lower-cased material name; anything unlisted is read as
      PLA. */
  function Density(material: string): (d: real)
    ensures d == 1.27 || d == 1.04 || d == 1.07 || d == 1.24
  {
    var name := Lower(material);
    if name == "petg" then 1.27
    else if name == "abs" then 1.04
    else if name == "asa" then 1.07
    else 1.24
  }

  /** The density lookup does not see letter case. */
  lemma DensityIgnoresCase(a: string, b: string)
    requires Lower(a) == Lower(b)
    ensures Density(a) == Density(b)
  {
  }

  lemma DensityExamples()
    ensures Density("PETG") == 1.27
    ensures Density("Abs") == 1.04
    ensures Density("asa") == 1.07
    ensures Density("PLA") == 1.24
  {
    assert Lower("PETG") == "petg";
    assert Lower("Abs") == "abs";
    assert Lower("asa") == "asa";
    assert Lower("PLA") == "pla";
  }

  /** Any name other than the three listed ones, in any case, gets the PLA
      density. */
  lemma DensityDefault(material: string)
    requires Lower(material) != "petg" && Lower(material) != "abs" && Lower(material) != "asa"
    ensures Density(material) == 1.24
  {
  }

  /** The server's densities agree with the client's material table for
      every material except TPU, which the server reads as PLA. */
  lemma DensityAgreesWithCatalog(i: nat)
    requires i < |Catalog.Materials| && Catalog.Materials[i].name != "TPU"
    ensures Density(Catalog.Materials[i].name) == Catalog.Materials[i].density
  {
    var name := Catalog.Materials[i].name;
    if name == "PETG" {
      assert Lower(name) == "petg";
    } else if name == "ASA" {
      assert Lower(name) == "asa";
    } else {
      assert |Lower(name)| == |name|;
      assert name == "PLA" ==> Lower(name) == "pla";
    }
  }

  lemma TpuDensityDiffers()
    ensures Catalog.Materials[6].name == "TPU"
    ensures Density("TPU") == 1.24 != Catalog.Materials[6].density
  {
    assert Lower("TPU") == "tpu";
  }

  /** The filament figure for a length in metres: length × 1000 × area
      gives mm³, `/ 1000` gives cm³, and the result is multiplied by
      `density / 1000`. */
  function FilamentGrams(meters: real, density: real): real
  {
    (meters * 1000.0 * FilamentArea / 1000.0) * (density / 1000.0)
  }

  /** The filament figure is linear in the length. */
  lemma FilamentGramsLinear(a: real, b: real, k: real, density: real)
    ensures FilamentGrams(a + b, density) == FilamentGrams(a, density) + FilamentGrams(b, density)
    ensures FilamentGrams(k * a, density) == k * FilamentGrams(a, density)
    ensures FilamentGrams(0.0, density) == 0.0
  {
  }

  lemma FilamentGramsNonNegative(meters: real, density: real)
    requires meters >= 0.0 && density >= 0.0
    ensures FilamentGrams(meters, density) >= 0.0
  {
    assert meters * 1000.0 * FilamentArea / 1000.0 >= 0.0;
  }

  /** The filament figure is the mass in grams of that much filament
      (cm³ × g/cm³) divided by 1000 once more, because the density is
      divided by 1000 as well. */
  lemma FilamentGramsIsThousandthOfMass(meters: real, density: real)
    ensures FilamentGrams(meters, density) * 1000.0 == (meters * 1000.0 * FilamentArea / 1000.0) * density
  {
  }

  function TimeHours(minutes: real): real
  {
    minutes / 60.0
  }

  function Price(grams: real, hours: real): real
  {
    grams * CostPerGram + hours * CostPerHour
  }

  lemma PriceNonNegative(grams: real, hours: real)
    requires grams >= 0.0 && hours >= 0.0
    ensures Price(grams, hours) >= 0.0
  {
  }

  /** `match ? parseFloat(match[1]) : 0`: 0 when the pattern does not
      match, otherwise the parsed capture (None when it is NaN). */
  function Measured(stdout: string, tag: string, unit: string): (r: Option<real>)
    requires UnitStopsRun(unit)
    ensures r.Some? ==> r.value >= 0.0
  {
    CaptureIsLeftmost(stdout, tag, unit);
    match Capture(stdout, tag, unit)
    case None => Some(0.0)
    case Some(c) => ParseFloat(c)
  }

  /** The three numbers of a successful response, before `toFixed(2)`;
      None stands for NaN. */
  datatype Quote = Quote(filament: Option<real>, time: Option<real>, price: Option<real>)

  /** The estimate computed from the engine's standard output. */
  function Interpret(stdout: string, material: string): (q: Quote)
    ensures q.price.Some? <==> q.filament.Some? && q.time.Some?
    ensures q.price.Some? ==> q.price.value == Price(q.filament.value, q.time.value)
  {
    UnitsStopRuns();
    var meters := Measured(stdout, FilamentLabel, FilamentUnit);
    var minutes := Measured(stdout, TimeLabel, TimeUnit);
    var grams := if meters.Some? then Some(FilamentGrams(meters.value, Density(material))) else None;
    var hours := if minutes.Some? then Some(TimeHours(minutes.value)) else None;
    var price := if grams.Some? && hours.Some? then Some(Price(grams.value, hours.value)) else None;
    Quote(grams, hours, price)
  }

  /** The `material` and `quality` fields of a multipart body, each
      possibly absent. */
  datatype Fields = Fields(material: Option<string>, quality: Option<string>)

  /** The upload request: the file multer stored, and the parsed body.
      A request that is not multipart leaves the body `undefined`. */
  datatype Request = Request(file: Option<string>, body: Option<Fields>)

  /** How the engine run ends: with an error, or with its standard
      output. */
  datatype EngineRun = EngineFailed | EngineOutput(stdout: string)

  /** The handler's response. `Crashed` is an exception thrown before the
      engine runs: destructuring an `undefined` body, or `toLowerCase` on
      an absent `quality` or `material`. */
  datatype Response =
    | BadRequest(error: string)
    | Crashed
    | SliceFailed(error: string)
    | Quoted(quote: Quote)
  {
    /** The HTTP status of the responses the handler writes itself. */
    function Status(): (s: Option<int>)
      ensures s.Some? <==> !Crashed?
    {
      match this
      case BadRequest(_) => Some(400)
      case Crashed => None
      case SliceFailed(_) => Some(500)
      case Quoted(_) => Some(200)
    }
  }

  /** Both fields the engine command needs are present. */
  predicate Complete(f: Fields)
  {
    f.material.Some? && f.quality.Some?
  }

  /** The `/api/slice` handler: the body is destructured first, then the
      file is checked, then both fields are lower-cased to build the
      command, and the engine's outcome decides the rest. */
  function Slice(req: Request, engine: EngineRun): (r: Response)
    ensures r.Crashed? <==> req.body.None? || (req.file.Some? && !Complete(req.body.value))
    ensures r.BadRequest? <==> req.body.Some? && req.file.None?
    ensures r.BadRequest? ==> r.error == "No file uploaded"
    ensures r.SliceFailed? <==>
      req.body.Some? && req.file.Some? && Complete(req.body.value) && engine.EngineFailed?
    ensures r.SliceFailed? ==> r.error == "Slicing failed"
    ensures r.Quoted? ==> engine.EngineOutput? && req.body.Some? && req.body.value.material.Some?
    ensures r.Quoted? ==> r.quote == Interpret(engine.stdout, req.body.value.material.value)
  {
    match req.body
    case None => Crashed
    case Some(fields) =>
      if req.file.None? then BadRequest("No file uploaded")
      else if fields.quality.None? || fields.material.None? then Crashed
      else
        match engine
        case EngineFailed => SliceFailed("Slicing failed")
        case EngineOutput(out) => Quoted(Interpret(out, fields.material.value))
  }

  /** Without an upload the engine is never consulted; the answer is 400
      once there is a body to destructure. */
  lemma NoFileNoSlicing(req: Request, e1: EngineRun, e2: EngineRun)
    requires req.file.None?
    ensures Slice(req, e1) == Slice(req, e2)
    ensures req.body.Some? ==> Slice(req, e1).Status() == Some(400)
    ensures req.body.None? ==> Slice(req, e1).Status().None?
  {
  }

  /** An engine error gives 500 and no estimate; an estimate comes only
      from a completed engine run. */
  lemma EngineErrorNoEstimate(req: Request, engine: EngineRun)
    requires req.file.Some? && req.body.Some? && Complete(req.body.value)
    ensures engine.EngineFailed? <==> Slice(req, engine) == SliceFailed("Slicing failed")
    ensures engine.EngineFailed? ==> Slice(req, engine).Status() == Some(500)
    ensures engine.EngineOutput? ==> Slice(req, engine).Quoted?
  {
  }

  /** When the filament pattern matches nowhere, the filament figure is 0
      and the time figure is still read from its own pattern. */
  lemma FilamentDefaultsToZero(stdout: string, material: string)
    requires forall i, c :: 0 <= i <= |stdout| ==> !MatchesWith(stdout, i, FilamentLabel, c, FilamentUnit)
    ensures Interpret(stdout, material).filament == Some(0.0)
    ensures var t := Measured(stdout, TimeLabel, TimeUnit);
      Interpret(stdout, material).time == if t.Some? then Some(TimeHours(t.value)) else None
  {
    UnitsStopRuns();
    NoMatchNoCapture(stdout, FilamentLabel, FilamentUnit);
  }

  /** When the time pattern matches nowhere, the time figure is 0 and the
      filament figure is still read from its own pattern. */
  lemma TimeDefaultsToZero(stdout: string, material: string)
    requires forall i, c :: 0 <= i <= |stdout| ==> !MatchesWith(stdout, i, TimeLabel, c, TimeUnit)
    ensures Interpret(stdout, material).time == Some(0.0)
    ensures var m := Measured(stdout, FilamentLabel, FilamentUnit);
      Interpret(stdout, material).filament
        == if m.Some? then Some(FilamentGrams(m.value, Density(material))) else None
  {
    UnitsStopRuns();
    NoMatchNoCapture(stdout, TimeLabel, TimeUnit);
  }

  lemma NoMatchNoCapture(s: string, tag: string, unit: string)
    requires UnitStopsRun(unit)
    requires forall i, c :: 0 <= i <= |s| ==> !MatchesWith(s, i, tag, c, unit)
    ensures Capture(s, tag, unit).None?
  {
    CaptureIsLeftmost(s, tag, unit);
  }

  /** The value read is the parse of the run captured at the leftmost index
      where the pattern matches. */
  lemma MeasuredFromLeftmostMatch(s: string, tag: string, unit: string, i: nat, c: string)
    requires UnitStopsRun(unit)
    requires MatchesWith(s, i, tag, c, unit)
    requires forall j, d :: 0 <= j < i ==> !MatchesWith(s, j, tag, d, unit)
    ensures AllRun(c) && Measured(s, tag, unit) == ParseFloat(c)
  {
    CaptureIsLeftmost(s, tag, unit);
    var r := Capture(s, tag, unit);
    assert r.Some?;
    var k :| 0 <= k <= |s| && MatchesWith(s, k, tag, r.value, unit) &&
      forall j, d :: 0 <= j < k ==> !MatchesWith(s, j, tag, d, unit);
    assert k == i;
    CaptureUnique(s, i, tag, c, r.value, unit);
  }

  /** End to end: when each pattern matches first at some index with some
      capture, the quote's figures are the parses of those captures, turned
      into grams at the material's density and into hours. */
  lemma InterpretFromLeftmostMatches(stdout: string, material: string,
                                     i: nat, c: string, j: nat, d: string)
    requires i <= |stdout| && j <= |stdout|
    requires MatchesWith(stdout, i, FilamentLabel, c, FilamentUnit)
    requires forall k, e :: 0 <= k < i ==> !MatchesWith(stdout, k, FilamentLabel, e, FilamentUnit)
    requires MatchesWith(stdout, j, TimeLabel, d, TimeUnit)
    requires forall k, e :: 0 <= k < j ==> !MatchesWith(stdout, k, TimeLabel, e, TimeUnit)
    ensures AllRun(c) && AllRun(d)
    ensures var q := Interpret(stdout, material);
      var m := ParseFloat(c);
      var t := ParseFloat(d);
      q.filament == (if m.Some? then Some(FilamentGrams(m.value, Density(material))) else None) &&
      q.time == (if t.Some? then Some(TimeHours(t.value)) else None)
  {
    UnitsStopRuns();
    MeasuredFromLeftmostMatch(stdout, FilamentLabel, FilamentUnit, i, c);
    MeasuredFromLeftmostMatch(stdout, TimeLabel, TimeUnit, j, d);
  }

  /** Whenever the price is a number it is non-negative: the captures hold
      no minus sign. */
  lemma QuotePriceNonNegative(stdout: string, material: string)
    ensures var q := Interpret(stdout, material);
      (q.filament.Some? ==> q.filament.value >= 0.0) &&
      (q.time.Some? ==> q.time.value >= 0.0) &&
      (q.price.Some? ==> q.price.value >= 0.0)
  {
    UnitsStopRuns();
    var q := Interpret(stdout, material);
    if q.filament.Some? {
      FilamentGramsNonNegative(Measured(stdout, FilamentLabel, FilamentUnit).value, Density(material));
    }
    if q.price.Some? {
      PriceNonNegative(q.filament.value, q.time.value);
    }
  }

  /** Finding the first character of a tag nowhere before `i` means the
      search can start at `i`. */
  lemma {:induction false} SkipToFirstTagChar(s: string, tag: string, unit: string,
                                              from: nat, i: nat)
    requires |tag| > 0 && from <= i <= |s|
    requires forall j :: from <= j < i ==> s[j] != tag[0]
    ensures FirstMatch(s, tag, unit, from) == FirstMatch(s, tag, unit, i)
    decreases i - from
  {
    if from < i {
      assert !StartsWith(s[from..], tag) by {
        assert s[from..][0] == s[from];
      }
      SkipToFirstTagChar(s, tag, unit, from + 1, i);
    }
  }

  /** Engine output of the usual shape: the filament line, then the time
      line. */
  const ExampleOutput: string := "Filament used: 2.500m\nPrint time: 120min"

  lemma ExampleFilamentCapture()
    ensures Capture(ExampleOutput, FilamentLabel, FilamentUnit) == Some("2.500")
  {
    assert ExampleOutput[0..][..21] == FilamentLabel + "2.500" + FilamentUnit;
    MatchesPinned(ExampleOutput, 0, FilamentLabel, "2.500", FilamentUnit);
  }

  lemma ExampleTimeCapture()
    ensures Capture(ExampleOutput, TimeLabel, TimeUnit) == Some("120")
  {
    var t := TimeLabel + "120" + TimeUnit;
    assert ExampleOutput[22..] == t;
    assert forall j :: 0 <= j < 22 ==> ExampleOutput[j] != TimeLabel[0] by {
      assert ExampleOutput[..22] == "Filament used: 2.500m\n";
      assert forall j :: 0 <= j < 22 ==> ExampleOutput[j] == ExampleOutput[..22][j];
    }
    MatchesPinned(ExampleOutput, 22, TimeLabel, "120", TimeUnit);
    SkipToFirstTagChar(ExampleOutput, TimeLabel, TimeUnit, 0, 22);
  }

  /** For PETG that output gives the figure of 2.5 m at density 1.27, and
      two hours. */
  lemma InterpretExample()
    ensures var q := Interpret(ExampleOutput, "PETG");
      q.filament == Some(FilamentGrams(2.5, 1.27)) && q.time == Some(2.0)
  {
    ExampleFilamentCapture();
    ExampleTimeCapture();
    ParseTwoPointFive();
    ParseOneTwenty();
    DensityExamples();
  }

  lemma ParseTwoPointFive()
    ensures AllRun("2.500") && ParseFloat("2.500") == Some(2.5)
  {
    LeadingDigitsIs("2.500", 1);
    LeadingDigitsIs("500", 3);
    assert "2.500"[..5] == "2.500";
    assert "2.500"[..1] == "2" && "2.500"[2..] == "500";
    assert "500"[1..] == "00" && "00"[1..] == "0" && "0"[1..] == "";
  }

  lemma ParseOneTwenty()
    ensures AllRun("120") && ParseFloat("120") == Some(120.0)
  {
    ParseFloatNat(120);
    assert NatToString(120) == "120";
  }
}
