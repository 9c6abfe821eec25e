/** The crop-yield estimate: a fixed weighted sum of three slider values,
    scaled by a per-crop factor. Arithmetic is over real numbers, an
    idealisation of the floating-point values the app computes with. */
module YieldPrediction {

  datatype Crop = Wheat | Corn | Rice | Soybeans

  /** The per-crop multipliers. */
  function CropFactor(c: Crop): (f: real)
    ensures 0.9 <= f <= 1.2
  {
    match c
    case Wheat => 1.0
    case Corn => 1.2
    case Rice => 1.1
    case Soybeans => 0.9
  }

  /** The page's inputs: the selected crop and the three sliders. Soil moisture
      and temperature sliders have integer bounds and so yield integers. */
  datatype Input = Input(crop: Crop, soilMoisture: int, temperature: int, nutrients: real)

  /** The slider ranges: soil moisture 0..100, temperature 0..50, nutrients 0.0..1.0. */
  predicate InSliderRange(i: Input)
  {
    0 <= i.soilMoisture <= 100 && 0 <= i.temperature <= 50 && 0.0 <= i.nutrients <= 1.0
  }

  /** The inputs the page starts with: the first crop and the slider defaults. */
  const DefaultInput: Input := Input(Wheat, 50, 25, 0.5)

  /** The weighted sum before the crop factor; over the slider ranges it lies
      between 0 and MaxBaseYield. */
  function BaseYield(soilMoisture: int, temperature: int, nutrients: real): (b: real)
    ensures 0 <= soilMoisture <= 100 && 0 <= temperature <= 50 && 0.0 <= nutrients <= 1.0 ==>
      0.0 <= b <= MaxBaseYield
  {
    (soilMoisture as real * 0.4 + temperature as real * 0.3 + nutrients * 100.0 * 0.3) / 10.0
  }

  /** The largest base yield the sliders allow. */
  const MaxBaseYield: real := 8.5

  /** The estimated yield in tons per hectare. */
  function EstimatedYield(i: Input): (y: real)
    ensures InSliderRange(i) ==> 0.0 <= y <= MaxBaseYield * CropFactor(i.crop)
  {
    BaseYield(i.soilMoisture, i.temperature, i.nutrients) * CropFactor(i.crop)
  }

  /** Over the slider ranges the estimate lies between 0 and 8.5 * 1.2. */
  lemma YieldBounds(i: Input)
    requires InSliderRange(i)
    ensures 0.0 <= EstimatedYield(i) <= MaxBaseYield * 1.2
  {
    var b := BaseYield(i.soilMoisture, i.temperature, i.nutrients);
    assert 0.0 <= b <= MaxBaseYield;
    match i.crop
    case Wheat =>
    case Corn =>
    case Rice =>
    case Soybeans =>
  }

  /** Both ends of that range are reached: all sliders at zero give 0, all at
      their maxima with Corn give 8.5 * 1.2. */
  lemma YieldBoundsTight()
    ensures EstimatedYield(Input(Corn, 0, 0, 0.0)) == 0.0
    ensures EstimatedYield(Input(Corn, 100, 50, 1.0)) == MaxBaseYield * 1.2
  {
  }

  /** Raising any one slider, the others and the crop fixed, never lowers the
      estimate. */
  lemma YieldMonotone(i: Input, j: Input)
    requires i.crop == j.crop
    requires i.soilMoisture <= j.soilMoisture
    requires i.temperature <= j.temperature
    requires i.nutrients <= j.nutrients
    ensures EstimatedYield(i) <= EstimatedYield(j)
  {
    var bi := BaseYield(i.soilMoisture, i.temperature, i.nutrients);
    var bj := BaseYield(j.soilMoisture, j.temperature, j.nutrients);
    assert bi <= bj;
    assert EstimatedYield(i) == bi * CropFactor(i.crop);
    assert EstimatedYield(j) == bj * CropFactor(i.crop);
    match i.crop
    case Wheat =>
    case Corn =>
    case Rice =>
    case Soybeans =>
  }

  /** For the same sliders (with a non-negative base, as the sliders ensure) the
      crops rank Soybeans <= Wheat <= Rice <= Corn. */
  lemma CropRanking(soilMoisture: int, temperature: int, nutrients: real)
    requires 0.0 <= BaseYield(soilMoisture, temperature, nutrients)
    ensures EstimatedYield(Input(Soybeans, soilMoisture, temperature, nutrients))
         <= EstimatedYield(Input(Wheat, soilMoisture, temperature, nutrients))
    ensures EstimatedYield(Input(Wheat, soilMoisture, temperature, nutrients))
         <= EstimatedYield(Input(Rice, soilMoisture, temperature, nutrients))
    ensures EstimatedYield(Input(Rice, soilMoisture, temperature, nutrients))
         <= EstimatedYield(Input(Corn, soilMoisture, temperature, nutrients))
  {
  }

  /** The slider defaults give a base of 4.25: 5.1 for Corn, 3.825 for Soybeans. */
  lemma DefaultSliderExamples()
    ensures BaseYield(DefaultInput.soilMoisture, DefaultInput.temperature, DefaultInput.nutrients) == 4.25
    ensures EstimatedYield(DefaultInput.(crop := Corn)) == 5.1
    ensures EstimatedYield(DefaultInput.(crop := Soybeans)) == 3.825
  {
  }
}
