/** Oil category codes, compensation chart codes, and the two classifiers
    that map between them: the category-to-chart switch and the density
    bands that pick the chart of a refined product. */
module Charts {
  import opened Wrappers

  /** The unsigned 8-bit code type the library passes categories and charts in. */
  newtype uint8 = x: int | 0 <= x < 0x100

  // Oil category codes accepted by the public entry point.
  const CrudeOilType: uint8 := 0
  const ProductOilType: uint8 := 1
  const LubeOilType: uint8 := 2

  // Compensation chart codes; 0 means "no chart".
  const NoChart: uint8 := 0
  const RawOil: uint8 := 0x10
  const Petrol: uint8 := 0x11
  const UndueOil: uint8 := 0x12
  const SpaceOil: uint8 := 0x13
  const DieselOil: uint8 := 0x14
  const LubeOil: uint8 := 0x15

  /** The coarse oil category a caller states. */
  datatype Category = Crude | Product | Lubricant

  /** The six compensation regimes, one correlation table each. */
  datatype Regime = CrudeRegime | Gasoline | Transition | JetFuel | Diesel | LubeRegime

  function CategoryCode(c: Category): (r: uint8)
    ensures r <= LubeOilType
  {
    match c
    case Crude => CrudeOilType
    case Product => ProductOilType
    case Lubricant => LubeOilType
  }

  /** Decodes a category code; only 0, 1 and 2 name a category. */
  function CategoryOf(code: uint8): (r: Option<Category>)
    ensures r.Some? <==> code <= LubeOilType
    ensures r.Some? ==> CategoryCode(r.value) == code
  {
    if code == CrudeOilType then Some(Crude)
    else if code == ProductOilType then Some(Product)
    else if code == LubeOilType then Some(Lubricant)
    else None
  }

  lemma CategoryCodeRoundTrip(c: Category)
    ensures CategoryOf(CategoryCode(c)) == Some(c)
  {
  }

  function RegimeCode(g: Regime): (r: uint8)
    ensures RawOil <= r <= LubeOil
  {
    match g
    case CrudeRegime => RawOil
    case Gasoline => Petrol
    case Transition => UndueOil
    case JetFuel => SpaceOil
    case Diesel => DieselOil
    case LubeRegime => LubeOil
  }

  /** Decodes a chart code; only 0x10 to 0x15 name a regime. */
  function RegimeOf(code: uint8): (r: Option<Regime>)
    ensures r.Some? <==> RawOil <= code <= LubeOil
    ensures r.Some? ==> RegimeCode(r.value) == code
  {
    if code == RawOil then Some(CrudeRegime)
    else if code == Petrol then Some(Gasoline)
    else if code == UndueOil then Some(Transition)
    else if code == SpaceOil then Some(JetFuel)
    else if code == DieselOil then Some(Diesel)
    else if code == LubeOil then Some(LubeRegime)
    else None
  }

  lemma RegimeCodeRoundTrip(g: Regime)
    ensures RegimeOf(RegimeCode(g)) == Some(g)
  {
  }

  /** The regime a category starts from. A refined product starts from the
      gasoline regime, which is provisional: the final regime of a product
      is chosen by density band once a first 15 degree density is known. */
  function Classify(c: Category): Regime
  {
    match c
    case Crude => CrudeRegime
    case Product => Gasoline
    case Lubricant => LubeRegime
  }

  /** The category-to-chart switch: a chart code for each category code,
      and 0 for every code that names no category. */
  function ConvToCompenChart(oil: uint8): (r: uint8)
    ensures r == NoChart <==> CategoryOf(oil).None?
    ensures CategoryOf(oil).Some? ==> r == RegimeCode(Classify(CategoryOf(oil).value))
  {
    if oil == CrudeOilType then RawOil
    else if oil == ProductOilType then Petrol
    else if oil == LubeOilType then LubeOil
    else NoChart
  }

  /** A half-open density interval [lo, hi) and the regime it selects. */
  datatype Band = Band(lo: real, hi: real, regime: Regime)

  predicate InBand(d: real, b: Band)
  {
    b.lo <= d < b.hi
  }

  /** The density bands of refined products, in the order they are tested. */
  const ProductBands: seq<Band> := [
    Band(838.3, 1163.5, Diesel),
    Band(787.5, 838.3, JetFuel),
    Band(770.3, 787.5, Transition),
    Band(610.6, 770.3, Gasoline)
  ]

  // The densities the product bands cover, together: [ProductLow, ProductHigh).
  const ProductLow: real := 610.6
  const ProductHigh: real := 1163.5

  /** The regime of the first band in `bands` that holds `d`, if any. */
  function Lookup(bands: seq<Band>, d: real): (r: Option<Regime>)
    ensures r.Some? <==> exists i :: 0 <= i < |bands| && InBand(d, bands[i])
    ensures r.Some? ==> exists i :: 0 <= i < |bands| && InBand(d, bands[i]) && bands[i].regime == r.value
                                    && forall j :: 0 <= j < i ==> !InBand(d, bands[j])
  {
    if |bands| == 0 then None
    else if InBand(d, bands[0]) then Some(bands[0].regime)
    else
      var r := Lookup(bands[1..], d);
      assert forall i :: 0 < i < |bands| ==> bands[i] == bands[1..][i - 1];
      r
  }

  /** No density lies in two product bands. */
  lemma ProductBandsDisjoint(d: real, i: nat, j: nat)
    requires i < j < |ProductBands|
    requires InBand(d, ProductBands[i])
    ensures !InBand(d, ProductBands[j])
  {
  }

  /** The product bands together cover exactly [610.6, 1163.5). */
  lemma ProductBandsCover(d: real)
    ensures (exists i :: 0 <= i < |ProductBands| && InBand(d, ProductBands[i]))
            <==> ProductLow <= d < ProductHigh
  {
    if ProductLow <= d < ProductHigh {
      if d >= 838.3 {
        assert InBand(d, ProductBands[0]);
      } else if d >= 787.5 {
        assert InBand(d, ProductBands[1]);
      } else if d >= 770.3 {
        assert InBand(d, ProductBands[2]);
      } else {
        assert InBand(d, ProductBands[3]);
      }
    }
  }

  /** The regime a refined product's 15 degree density selects: the regime of
      the one band holding it, or none outside all bands. */
  function ProductRegime(den15: real): (r: Option<Regime>)
    ensures r.Some? <==> ProductLow <= den15 < ProductHigh
    ensures forall i :: 0 <= i < |ProductBands| && InBand(den15, ProductBands[i]) ==> r == Some(ProductBands[i].regime)
    ensures r != Some(CrudeRegime) && r != Some(LubeRegime)
  {
    ProductBandsCover(den15);
    var r := Lookup(ProductBands, den15);
    forall i | 0 <= i < |ProductBands| && InBand(den15, ProductBands[i])
      ensures r == Some(ProductBands[i].regime)
    {
      forall j | 0 <= j < |ProductBands| && j != i
        ensures !InBand(den15, ProductBands[j])
      {
        if j < i {
          if InBand(den15, ProductBands[j]) { ProductBandsDisjoint(den15, j, i); }
        } else {
          ProductBandsDisjoint(den15, i, j);
        }
      }
    }
    r
  }

  /** The chart code of a refined product by its 15 degree density: the
      code of the regime its band selects, 0 outside every band, and never
      the crude or lubricant chart. */
  function ChartForProductOil(den15: real): (r: uint8)
    ensures r != NoChart <==> ProductLow <= den15 < ProductHigh
    ensures ProductRegime(den15).Some? ==> r == RegimeCode(ProductRegime(den15).value)
    ensures r != RawOil && r != LubeOil
  {
    if 838.3 <= den15 < 1163.5 then DieselOil
    else if 787.5 <= den15 < 838.3 then SpaceOil
    else if 770.3 <= den15 < 787.5 then UndueOil
    else if 610.6 <= den15 < 770.3 then Petrol
    else NoChart
  }
}
