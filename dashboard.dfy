/**
 * public/js/dashboard.js: the live dashboard's pure helpers. How it finds its
 * base path, the value vectors it hands to the charts, the dominant channel
 * and the quality grade it shows for the latest sample.
 */
module Dashboard {
  import opened Common

  const BasePrefix := "/cheesense"

  /**
   * getBasePath: "/cheesense" when the page's pathname starts with it, else "".
   * The base path is always a prefix of the pathname. history.js carries the
   * same function.
   */
  function GetBasePath(pathname: string): (base: string)
    ensures base == BasePrefix <==> BasePrefix <= pathname
    ensures base != BasePrefix ==> base == ""
    ensures base <= pathname
  {
    if BasePrefix <= pathname then BasePrefix else ""
  }

  // ---------------------------------------------------------------------------
  // Chart vectors
  // ---------------------------------------------------------------------------

  /** updateSpectrumChart: the ten channels f1..f8, clear, nir, a missing one as 0. */
  function SpectrumValues(data: Channels<Option<real>>): (v: seq<real>)
    ensures |v| == ChannelCount
    ensures forall k :: 0 <= k < ChannelCount ==> v[k] == OrZero(data.Values()[k])
  {
    [OrZero(data.f1), OrZero(data.f2), OrZero(data.f3), OrZero(data.f4),
     OrZero(data.f5), OrZero(data.f6), OrZero(data.f7), OrZero(data.f8),
     OrZero(data.clear), OrZero(data.nir)]
  }

  /** updatePieChart: the eight spectral channels, the spectrum vector without clear and nir. */
  function PieValues(data: Channels<Option<real>>): (v: seq<real>)
    ensures v == SpectrumValues(data)[..8]
  {
    [OrZero(data.f1), OrZero(data.f2), OrZero(data.f3), OrZero(data.f4),
     OrZero(data.f5), OrZero(data.f6), OrZero(data.f7), OrZero(data.f8)]
  }

  /** updateGaugeChart: clear and nir, the last two entries of the spectrum vector. */
  function GaugeValues(data: Channels<Option<real>>): (v: seq<real>)
    ensures v == SpectrumValues(data)[8..]
  {
    [OrZero(data.clear), OrZero(data.nir)]
  }

  /**
   * A stored sample the server sends, with every channel present, is charted with
   * exactly its stored values: the page's `|| 0` only turns a 0 into 0.
   */
  lemma {:induction false} ChartsShowStoredValues<Id>(d: Reading<Id>)
    ensures SpectrumValues(d.channels.Map(x => Some(x))) == d.channels.Values()
  {
    var sent := d.channels.Map(x => Some(x));
    forall k | 0 <= k < ChannelCount
      ensures SpectrumValues(sent)[k] == d.channels.Values()[k]
    {
      assert sent.Values()[k] == Some(d.channels.Values()[k]);
    }
  }

  // ---------------------------------------------------------------------------
  // findDominantChannel
  // ---------------------------------------------------------------------------

  /**
   * Channel `k` of `values` beats the running maximum's start value -1, is strictly
   * greater than every earlier channel and at least every later one.
   */
  ghost predicate IsDominant(values: seq<real>, k: nat) {
    k < |values| && values[k] > -1.0 &&
    (forall j :: 0 <= j < k ==> values[j] < values[k]) &&
    (forall j :: k < j < |values| ==> values[j] <= values[k])
  }

  /** At most one channel is dominant, so the contract below fixes the answer. */
  lemma DominantIsUnique(values: seq<real>, a: nat, b: nat)
    requires IsDominant(values, a) && IsDominant(values, b)
    ensures a == b
  {
  }

  /**
   * findDominantChannel: the index (0 for f1 .. 7 for f8) of the greatest of the
   * eight spectral values, a missing value counting as 0, the first one on ties
   * (strict `>`); None when no value beats the start value -1.
   */
  method FindDominantChannel(data: Channels<Option<real>>) returns (dominant: Option<nat>)
    ensures dominant.None? <==> forall k :: 0 <= k < 8 ==> OrZero(data.Values()[k]) <= -1.0
    ensures dominant.Some? ==> dominant.value < 8 && IsDominant(PieValues(data), dominant.value)
  {
    var channels := data.Values();
    var maxValue := -1.0;
    dominant := None;
    var i := 0;
    while i < 8
      invariant 0 <= i <= 8
      invariant dominant.None? ==> maxValue == -1.0 && forall k :: 0 <= k < i ==> OrZero(channels[k]) <= -1.0
      invariant dominant.Some? ==>
                  dominant.value < i && maxValue == OrZero(channels[dominant.value]) && maxValue > -1.0 &&
                  (forall k :: 0 <= k < dominant.value ==> OrZero(channels[k]) < maxValue) &&
                  (forall k :: dominant.value < k < i ==> OrZero(channels[k]) <= maxValue)
    {
      var value := OrZero(channels[i]);
      if value > maxValue {
        maxValue := value;
        dominant := Some(i);
      }
      i := i + 1;
    }
  }

  // ---------------------------------------------------------------------------
  // analyzeQuality
  // ---------------------------------------------------------------------------

  /** The grades analyzeQuality shows, worst to best, with their label and colour. */
  datatype Quality = Waiting | NeedsAttention | Fair | Good | VeryGood
  {
    function Status(): string {
      match this
      case Waiting => "Menunggu Data..."
      case NeedsAttention => "Perlu Perhatian"
      case Fair => "Cukup"
      case Good => "Baik"
      case VeryGood => "Sangat Baik \U{2713}"
    }

    function Color(): string {
      match this
      case Waiting => "#757575"
      case NeedsAttention => "#FF9800"
      case Fair => "#FFC107"
      case Good => "#8BC34A"
      case VeryGood => "#4CAF50"
    }

    /** The order of the grades, Waiting lowest. */
    function Rank(): nat {
      match this
      case Waiting => 0
      case NeedsAttention => 1
      case Fair => 2
      case Good => 3
      case VeryGood => 4
    }
  }

  /** The mean of the yellow (f6) and orange (f7) channels, a missing one as 0. */
  function YellowOrangeAverage(data: Channels<Option<real>>): real {
    (OrZero(data.f6) + OrZero(data.f7)) / 2.0
  }

  /** The grade of an average: exactly 0 means no data yet; then thresholds 500, 300, 150. */
  function Grade(avg: real): (q: Quality)
    ensures q == Waiting <==> avg == 0.0
    ensures q == VeryGood <==> avg > 500.0
    ensures q == Good <==> 300.0 < avg <= 500.0
    ensures q == Fair <==> 150.0 < avg <= 300.0
    ensures q == NeedsAttention <==> avg != 0.0 && avg <= 150.0
  {
    if avg == 0.0 then Waiting
    else if avg > 500.0 then VeryGood
    else if avg > 300.0 then Good
    else if avg > 150.0 then Fair
    else NeedsAttention
  }

  /** analyzeQuality */
  function AnalyzeQuality(data: Channels<Option<real>>): (q: Quality)
    ensures q == Waiting <==> OrZero(data.f6) + OrZero(data.f7) == 0.0
    ensures q == NeedsAttention ==> YellowOrangeAverage(data) <= 150.0
    ensures q == Grade(YellowOrangeAverage(data))
  {
    Grade(YellowOrangeAverage(data))
  }

  /**
   * Apart from the "waiting" grade of an exact 0, a higher average never gets a
   * lower grade; a negative average is graded "needs attention".
   */
  lemma GradeMonotone(a: real, b: real)
    requires a != 0.0 && b != 0.0 && a <= b
    ensures Grade(a).Rank() <= Grade(b).Rank()
    ensures a < 0.0 ==> Grade(a) == NeedsAttention
  {
  }
}
