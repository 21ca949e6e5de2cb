/** The WMO weather-code lists the program counts days against. */
module WeatherCodes {

  datatype Category = Clear | Cloudy | Foggy | Rainy | Snowy | Stormy | Unclassified

  /** The six categories that have a code list of their own; a code on none
      of the lists is Unclassified. */
  type Named = k: Category | k != Unclassified witness Clear

  const ClearCodes: set<int> := {0, 1}
  const CloudyCodes: set<int> := {2, 3}
  const FoggyCodes: set<int> := {45, 48}
  const RainyCodes: set<int> := {85, 86}
  const SnowyCodes: set<int> := {71, 73, 75}
  const StormyCodes: set<int> := {95, 96, 99}

  /** The code list of a named category. */
  function Listed(k: Named): set<int>
  {
    match k
    case Clear => ClearCodes
    case Cloudy => CloudyCodes
    case Foggy => FoggyCodes
    case Rainy => RainyCodes
    case Snowy => SnowyCodes
    case Stormy => StormyCodes
  }

  /** The one category a code belongs to. It is total: a code on none of the
      lists, such as 50, is Unclassified rather than an error, and a code on a
      list is on that list only. */
  function Classify(code: int): (k: Category)
    ensures forall n: Named :: code in Listed(n) <==> n == k
  {
    if code in ClearCodes then Clear
    else if code in CloudyCodes then Cloudy
    else if code in FoggyCodes then Foggy
    else if code in RainyCodes then Rainy
    else if code in SnowyCodes then Snowy
    else if code in StormyCodes then Stormy
    else Unclassified
  }

  /** No code is on two lists, so a day adds to at most one count. */
  lemma ListsDisjoint(m: Named, n: Named)
    requires m != n
    ensures Listed(m) !! Listed(n)
  {
    forall code | code in Listed(m)
      ensures code !in Listed(n)
    {
      var _ := Classify(code);
    }
  }
}
